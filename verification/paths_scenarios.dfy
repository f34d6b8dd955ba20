/** The fixtures of the path-resolution tests, stated as lemmas about the
    model. Each fixture lists the entries the in-memory filesystem holds
    under its root, directories included; the lemmas hold for any root,
    the tests' roots being instances. */
module PathsScenarios {
  import opened Wrappers
  import opened Strings
  import opened Paths

  /** Enumerating candidates part by part. */
  lemma {:induction false} CandidatesAppend(root: string, a: seq<string>, b: seq<string>, matches: string -> bool)
    ensures Candidates(root, a + b, matches) == Candidates(root, a, matches) + Candidates(root, b, matches)
  {
    if |a| == 0 {
      assert a + b == b;
    } else {
      assert (a + b)[1..] == a[1..] + b;
      CandidatesAppend(root, a[1..], b, matches);
    }
  }

  lemma NoCandidates(root: string, entries: seq<string>, matches: string -> bool)
    requires forall i :: 0 <= i < |entries| ==> !matches(entries[i])
    ensures Candidates(root, entries, matches) == []
  {
  }

  /** Exactly one matching entry. */
  lemma OneCandidate(root: string, head: seq<string>, x: string, tail: seq<string>, matches: string -> bool)
    requires matches(x)
    requires forall i :: 0 <= i < |head| ==> !matches(head[i])
    requires forall i :: 0 <= i < |tail| ==> !matches(tail[i])
    ensures Candidates(root, head + [x] + tail, matches) == [Join(root, x)]
  {
    NoCandidates(root, head, matches);
    NoCandidates(root, tail, matches);
    CandidatesOne(root, x, matches);
    CandidatesAppend(root, head, [x], matches);
    assert Candidates(root, head + [x], matches) == [] + [Join(root, x)] == [Join(root, x)];
    CandidatesAppend(root, head + [x], tail, matches);
    assert Candidates(root, head + [x] + tail, matches) == [Join(root, x)] + [] == [Join(root, x)];
  }

  lemma CandidatesOne(root: string, e: string, matches: string -> bool)
    ensures Candidates(root, [e], matches) == if matches(e) then [Join(root, e)] else []
  {
  }

  lemma CandidatesPair(root: string, a: seq<string>, b: seq<string>, matches: string -> bool, x: string, y: string)
    requires Candidates(root, a, matches) == [x]
    requires Candidates(root, b, matches) == [y]
    ensures Candidates(root, a + b, matches) == [x, y]
  {
    CandidatesAppend(root, a, b, matches);
  }

  /** The shapes of the fixtures below, stated over arbitrary entries so
      that no proof has to take a fixture's literal paths apart. */
  lemma CandidatesOfTwo(root: string, matches: string -> bool, x: string, y: string)
    ensures Candidates(root, [x, y], matches) == Candidates(root, [x], matches) + Candidates(root, [y], matches)
  {
  }

  lemma CandidatesOfThree(root: string, matches: string -> bool, x: string, y: string, z: string)
    ensures Candidates(root, [x, y, z], matches)
         == Candidates(root, [x], matches) + Candidates(root, [y], matches) + Candidates(root, [z], matches)
  {
  }

  lemma SecondOfThree(root: string, matches: string -> bool, a: string, x: string, c: string)
    requires !matches(a) && matches(x) && !matches(c)
    ensures Candidates(root, [a, x, c], matches) == [Join(root, x)]
  {
    CandidatesOfThree(root, matches, a, x, c);
  }

  lemma FirstOfFour(root: string, matches: string -> bool, x: string, b: string, c: string, d: string)
    requires matches(x) && !matches(b) && !matches(c) && !matches(d)
    ensures Candidates(root, [x, b, c, d], matches) == [Join(root, x)]
  {
    assert [x, b, c, d] == [] + [x] + [b, c, d];
    OneCandidate(root, [], x, [b, c, d], matches);
  }

  lemma SecondOfSix(root: string, matches: string -> bool, a: string, x: string, c: string, d: string, e: string, f: string)
    requires !matches(a) && matches(x) && !matches(c) && !matches(d) && !matches(e) && !matches(f)
    ensures Candidates(root, [a, x, c, d, e, f], matches) == [Join(root, x)]
  {
    assert [a, x, c, d, e, f] == [a] + [x] + [c, d, e, f];
    OneCandidate(root, [a], x, [c, d, e, f], matches);
  }

  /** Entries after a prefix that matches nothing. */
  lemma AfterUnmatched(root: string, matches: string -> bool, base: seq<string>, rest: seq<string>)
    requires forall i :: 0 <= i < |base| ==> !matches(base[i])
    ensures Candidates(root, base + rest, matches) == Candidates(root, rest, matches)
  {
    NoCandidates(root, base, matches);
    CandidatesAppend(root, base, rest, matches);
    assert [] + Candidates(root, rest, matches) == Candidates(root, rest, matches);
  }

  // The entries of the fixtures, each classified by a lemma of its own.

  const IosDir := "ios"
  const TestProject := "ios/testproject.xcodeproj"
  const OtherProject := "ios/otherproject.xcodeproj"
  const TestPbxproj := "ios/testproject.xcodeproj/project.pbxproj"
  const OtherPbxproj := "ios/otherproject.xcodeproj/project.pbxproj"
  const Podfile := "ios/Podfile"
  const Podspec := "ios/TestPod.podspec"
  const SourceDir := "ios/testproject"
  const ObjcFile := "ios/testproject/AppDelegate.m"
  const HeaderFile := "ios/testproject/AppDelegate.h"
  const SwiftFile := "ios/testproject/AppDelegate.swift"

  /** Neither an Xcode project nor an AppDelegate source. */
  predicate Unrelated(e: string) {
    !IsXcodeProjectEntry(e) && !IsAppDelegateEntry(e)
  }

  lemma IosDirKind() ensures Unrelated(IosDir) {}
  lemma TestPbxprojKind() ensures Unrelated(TestPbxproj) {}
  lemma OtherPbxprojKind() ensures Unrelated(OtherPbxproj) {}
  lemma PodfileKind() ensures Unrelated(Podfile) {}
  lemma PodspecKind() ensures Unrelated(Podspec) {}
  lemma SourceDirKind() ensures Unrelated(SourceDir) {}
  lemma HeaderFileKind() ensures Unrelated(HeaderFile) {}

  lemma TestProjectKind()
    ensures IsXcodeProjectEntry(TestProject) && !IsAppDelegateEntry(TestProject)
  {
    assert HasPrefix(TestProject, "ios/") && HasSuffix(TestProject, ".xcodeproj");
  }

  lemma OtherProjectKind()
    ensures IsXcodeProjectEntry(OtherProject)
  {
    assert HasPrefix(OtherProject, "ios/") && HasSuffix(OtherProject, ".xcodeproj");
  }

  lemma ObjcFileKind()
    ensures !IsXcodeProjectEntry(ObjcFile)
    ensures IsObjcAppDelegateEntry(ObjcFile) && !IsSwiftAppDelegateEntry(ObjcFile)
  {
    assert HasPrefix(ObjcFile, "ios/") && HasSuffix(ObjcFile, "/AppDelegate.m");
  }

  lemma SwiftFileKind()
    ensures !IsXcodeProjectEntry(SwiftFile)
    ensures IsSwiftAppDelegateEntry(SwiftFile) && !IsObjcAppDelegateEntry(SwiftFile)
  {
    assert HasPrefix(SwiftFile, "ios/") && HasSuffix(SwiftFile, "/AppDelegate.swift");
  }

  // getXcodeProjectPath

  /** The entries `/app`, `/objc`, `/swift` and `/confusing` share: the
      Xcode project, the Podfile, the podspec and the directory the app's
      sources live in. */
  const FixtureBase: seq<string> := [IosDir, TestProject, TestPbxproj, Podfile, Podspec, SourceDir]

  lemma BaseCandidates(root: string)
    ensures Candidates(root, FixtureBase, IsXcodeProjectEntry) == [Join(root, TestProject)]
  {
    IosDirKind();
    TestProjectKind();
    TestPbxprojKind();
    PodfileKind();
    PodspecKind();
    SourceDirKind();
    SecondOfSix(root, IsXcodeProjectEntry, IosDir, TestProject, TestPbxproj, Podfile, Podspec, SourceDir);
  }

  /** The test's `/app`: one Xcode project beside a Podfile, a podspec and
      the app's `AppDelegate.m`. */
  const AppEntries: seq<string> := FixtureBase + [ObjcFile]

  lemma AppCandidates(root: string)
    ensures Candidates(root, AppEntries, IsXcodeProjectEntry) == [Join(root, TestProject)]
  {
    BaseCandidates(root);
    ObjcFileKind();
    CandidatesAppend(root, FixtureBase, [ObjcFile], IsXcodeProjectEntry);
    assert [Join(root, TestProject)] + [] == [Join(root, TestProject)];
  }

  /** `/app`: the one Xcode project is returned without a warning; the
      Podfile and the podspec beside it are not candidates. */
  lemma XcodeProjectSingle(root: string)
    ensures GetXcodeProjectPath(root, AppEntries) == Success(Resolved(Join(root, TestProject), None))
  {
    AppCandidates(root);
  }

  /** `/none`: an empty root has no Xcode project. */
  lemma XcodeProjectNone(root: string)
    ensures GetXcodeProjectPath(root, []).Failure?
  {
  }

  /** The test's `/multiple`: two Xcode projects, the first half of its
      entries holding `otherproject` and the second `testproject`. */
  const MultipleHead: seq<string> := [IosDir, OtherProject, OtherPbxproj]
  const MultipleTail: seq<string> := [TestProject, TestPbxproj, SourceDir, ObjcFile]
  const MultipleEntries: seq<string> := MultipleHead + MultipleTail

  lemma MultipleHeadCandidates(root: string)
    ensures Candidates(root, MultipleHead, IsXcodeProjectEntry) == [Join(root, OtherProject)]
  {
    IosDirKind();
    OtherProjectKind();
    OtherPbxprojKind();
    SecondOfThree(root, IsXcodeProjectEntry, IosDir, OtherProject, OtherPbxproj);
  }

  lemma MultipleTailCandidates(root: string)
    ensures Candidates(root, MultipleTail, IsXcodeProjectEntry) == [Join(root, TestProject)]
  {
    TestProjectKind();
    TestPbxprojKind();
    SourceDirKind();
    ObjcFileKind();
    FirstOfFour(root, IsXcodeProjectEntry, TestProject, TestPbxproj, SourceDir, ObjcFile);
  }

  lemma MultipleCandidates(root: string)
    ensures Candidates(root, MultipleEntries, IsXcodeProjectEntry)
         == [Join(root, OtherProject), Join(root, TestProject)]
  {
    MultipleHeadCandidates(root);
    MultipleTailCandidates(root);
    CandidatesPair(root, MultipleHead, MultipleTail, IsXcodeProjectEntry, Join(root, OtherProject), Join(root, TestProject));
  }

  lemma OtherSortsBeforeTest()
    ensures LexLe(OtherProject, TestProject)
  {
  }

  /** `otherproject` sorts before `testproject` under any root. */
  lemma OtherProjectFirst(root: string)
    ensures LexLe(Join(root, OtherProject), Join(root, TestProject))
    ensures Join(root, OtherProject) != Join(root, TestProject)
  {
    OtherSortsBeforeTest();
    LexLeSharedPrefix("/", OtherProject, TestProject);
    LexLeSharedPrefix(root, "/" + OtherProject, "/" + TestProject);
    assert Join(root, OtherProject)[|root| + 5] == OtherProject[4];
    assert Join(root, TestProject)[|root| + 5] == TestProject[4];
  }

  /** `/multiple`: `otherproject` is chosen over `testproject`, and the warning
      ignores exactly `testproject`. */
  lemma XcodeProjectMultiple(root: string)
    ensures
      var other, test := Join(root, OtherProject), Join(root, TestProject);
      GetXcodeProjectPath(root, MultipleEntries)
        == Success(Resolved(other, Some(Warning("paths-xcodeproj", "*.xcodeproj", other, [test]))))
  {
    var other, test := Join(root, OtherProject), Join(root, TestProject);
    MultipleCandidates(root);
    OtherProjectFirst(root);
    assert Least([other, test]) == other;
    assert Without([other, test], other) == [test];
  }

  /** The warning `/multiple` reports, word for word. */
  lemma XcodeProjectMultipleMessage(root: string)
    ensures
      var r := GetXcodeProjectPath(root, MultipleEntries);
      && r.Success? && r.value.warning.Some?
      && r.value.warning.value.Message()
         == "Found multiple *.xcodeproj file paths, using " + Quote(Join(root, OtherProject))
            + ". Ignored paths: [" + Quote(Join(root, TestProject)) + "]"
  {
    assert "Found multiple " + "*.xcodeproj" + " file paths, using " == "Found multiple *.xcodeproj file paths, using ";
    XcodeProjectMultiple(root);
    assert QuotedList([Join(root, TestProject)]) == Quote(Join(root, TestProject));
  }

  // getAppDelegate

  lemma BaseHasNoAppDelegate()
    ensures forall i :: 0 <= i < |FixtureBase| ==> !IsAppDelegateEntry(FixtureBase[i])
    ensures forall i :: 0 <= i < |FixtureBase| ==> !IsObjcAppDelegateEntry(FixtureBase[i])
    ensures forall i :: 0 <= i < |FixtureBase| ==> !IsSwiftAppDelegateEntry(FixtureBase[i])
  {
  }

  /** The test's `/objc`: `AppDelegate.m` beside its header. */
  const ObjcEntries: seq<string> := FixtureBase + [ObjcFile, HeaderFile]

  lemma ObjcCandidates(root: string)
    ensures Candidates(root, ObjcEntries, IsAppDelegateEntry) == [Join(root, ObjcFile)]
    ensures Candidates(root, ObjcEntries, IsObjcAppDelegateEntry) == [Join(root, ObjcFile)]
  {
    BaseHasNoAppDelegate();
    ObjcFileKind();
    HeaderFileKind();
    AfterUnmatched(root, IsAppDelegateEntry, FixtureBase, [ObjcFile, HeaderFile]);
    AfterUnmatched(root, IsObjcAppDelegateEntry, FixtureBase, [ObjcFile, HeaderFile]);
    CandidatesOfTwo(root, IsAppDelegateEntry, ObjcFile, HeaderFile);
    CandidatesOfTwo(root, IsObjcAppDelegateEntry, ObjcFile, HeaderFile);
  }

  /** `/objc`: the `.m` file is returned, in Objective-C, without a warning;
      the header is not a candidate. */
  lemma AppDelegateObjc(root: string)
    ensures GetAppDelegate(root, ObjcEntries) == Success(Resolved(AppDelegate(Join(root, ObjcFile), ObjC), None))
  {
    ObjcCandidates(root);
  }

  /** The test's `/swift`: a lone `AppDelegate.swift`. */
  const SwiftEntries: seq<string> := FixtureBase + [SwiftFile]

  lemma SwiftCandidates(root: string)
    ensures Candidates(root, SwiftEntries, IsAppDelegateEntry) == [Join(root, SwiftFile)]
    ensures Candidates(root, SwiftEntries, IsObjcAppDelegateEntry) == []
    ensures Candidates(root, SwiftEntries, IsSwiftAppDelegateEntry) == [Join(root, SwiftFile)]
  {
    BaseHasNoAppDelegate();
    SwiftFileKind();
    AfterUnmatched(root, IsAppDelegateEntry, FixtureBase, [SwiftFile]);
    AfterUnmatched(root, IsObjcAppDelegateEntry, FixtureBase, [SwiftFile]);
    AfterUnmatched(root, IsSwiftAppDelegateEntry, FixtureBase, [SwiftFile]);
  }

  /** `/swift`: the Swift file is returned, in Swift, without a warning. */
  lemma AppDelegateSwift(root: string)
    ensures GetAppDelegate(root, SwiftEntries) == Success(Resolved(AppDelegate(Join(root, SwiftFile), Swift), None))
  {
    SwiftCandidates(root);
  }

  /** The test's `/invalid`: the Xcode project, the Podfile and the
      podspec, and no sources. */
  const InvalidEntries: seq<string> := [IosDir, TestProject, TestPbxproj, Podfile, Podspec]

  /** `/invalid`: without any AppDelegate source the resolver raises an
      error that mentions `AppDelegate`. */
  lemma AppDelegateInvalid(root: string)
    ensures GetAppDelegate(root, InvalidEntries).Failure?
    ensures Contains(GetAppDelegate(root, InvalidEntries).error.message, "AppDelegate")
  {
    IosDirKind();
    TestProjectKind();
    TestPbxprojKind();
    PodfileKind();
    PodspecKind();
  }

  /** The test's `/confusing`: Swift, Objective-C and header files side by side. */
  const ConfusingEntries: seq<string> := FixtureBase + [SwiftFile, ObjcFile, HeaderFile]

  lemma ConfusingCandidates(root: string)
    ensures Candidates(root, ConfusingEntries, IsAppDelegateEntry) == [Join(root, SwiftFile), Join(root, ObjcFile)]
  {
    BaseHasNoAppDelegate();
    SwiftFileKind();
    ObjcFileKind();
    HeaderFileKind();
    AfterUnmatched(root, IsAppDelegateEntry, FixtureBase, [SwiftFile, ObjcFile, HeaderFile]);
    CandidatesOfThree(root, IsAppDelegateEntry, SwiftFile, ObjcFile, HeaderFile);
  }

  lemma ConfusingObjcCandidates(root: string)
    ensures Candidates(root, ConfusingEntries, IsObjcAppDelegateEntry) == [Join(root, ObjcFile)]
  {
    BaseHasNoAppDelegate();
    SwiftFileKind();
    ObjcFileKind();
    HeaderFileKind();
    AfterUnmatched(root, IsObjcAppDelegateEntry, FixtureBase, [SwiftFile, ObjcFile, HeaderFile]);
    CandidatesOfThree(root, IsObjcAppDelegateEntry, SwiftFile, ObjcFile, HeaderFile);
  }

  /** `/confusing`: the `.m` file wins, and the warning ignores exactly the
      Swift file. */
  lemma AppDelegateConfusing(root: string)
    ensures
      var m, s := Join(root, ObjcFile), Join(root, SwiftFile);
      GetAppDelegate(root, ConfusingEntries)
        == Success(Resolved(AppDelegate(m, ObjC), Some(Warning("paths-app-delegate", "AppDelegate", m, [s]))))
  {
    var m, s := Join(root, ObjcFile), Join(root, SwiftFile);
    ConfusingCandidates(root);
    ConfusingObjcCandidates(root);
    assert m != s;
    assert Without([s, m], m) == [s];
  }

  /** The warning `/confusing` reports, word for word. */
  lemma AppDelegateConfusingMessage(root: string)
    ensures
      var r := GetAppDelegate(root, ConfusingEntries);
      && r.Success? && r.value.warning.Some?
      && r.value.warning.value.Message()
         == "Found multiple AppDelegate file paths, using " + Quote(Join(root, ObjcFile))
            + ". Ignored paths: [" + Quote(Join(root, SwiftFile)) + "]"
  {
    assert "Found multiple " + "AppDelegate" + " file paths, using " == "Found multiple AppDelegate file paths, using ";
    AppDelegateConfusing(root);
    assert QuotedList([Join(root, SwiftFile)]) == Quote(Join(root, SwiftFile));
  }
}
