/** Resolution of the two iOS native-project artifacts a config plugin needs:
    the Xcode project directory directly under `ios` and the `AppDelegate` source file.

    The filesystem is abstracted into `entries`: every file and directory
    under the project root, as a path relative to that root, in the order
    the filesystem enumerates them. A candidate is the root joined to a
    matching entry. With several candidates one is chosen and a warning
    (returned as part of the result rather than sent to the warning
    aggregator) names the chosen path and the ignored ones. */
module Paths {
  import opened Wrappers
  import opened Strings

  datatype Language = ObjC | Swift

  /** What `getAppDelegate` returns. */
  datatype AppDelegate = AppDelegate(path: string, language: Language)

  /** A call to `addWarningIOS(category, Message())`. */
  datatype Warning = Warning(category: string, fileKind: string, chosen: string, ignored: seq<string>) {

    function Message(): string {
      "Found multiple " + fileKind + " file paths, using " + Quote(chosen)
      + ". Ignored paths: [" + QuotedList(ignored) + "]"
    }
  }

  /** A resolved value and the warning issued while resolving it, if any. */
  datatype Resolved<T> = Resolved(value: T, warning: Option<Warning>)

  /** The `UnexpectedError` thrown when nothing matches. */
  datatype Error = UnexpectedError(message: string)

  const XcodeProjectCategory := "paths-xcodeproj"
  const AppDelegateCategory := "paths-app-delegate"

  function Quote(s: string): string {
    "\"" + s + "\""
  }

  /** The comma-separated list of quoted paths inside the brackets of a warning. */
  function QuotedList(paths: seq<string>): string {
    if |paths| == 0 then ""
    else if |paths| == 1 then Quote(paths[0])
    else Quote(paths[0]) + "," + QuotedList(paths[1..])
  }

  function Join(root: string, rel: string): string {
    root + ("/" + rel)
  }

  /** A single path segment the glob `*` matches: non-empty, not a dotfile. */
  predicate IsPlainName(name: string) {
    |name| > 0 && name[0] != '.' && '/' !in name
  }

  /** The entry is a `.xcodeproj` directory directly under `ios`: the single-level glob match. */
  predicate IsXcodeProjectEntry(rel: string) {
    && HasPrefix(rel, "ios/")
    && HasSuffix(rel, ".xcodeproj")
    && |rel| > 14
    && IsPlainName(rel[4..|rel| - 10])
  }

  predicate IsObjcAppDelegateEntry(rel: string) {
    HasPrefix(rel, "ios/") && HasSuffix(rel, "/AppDelegate.m")
  }

  predicate IsSwiftAppDelegateEntry(rel: string) {
    HasPrefix(rel, "ios/") && HasSuffix(rel, "/AppDelegate.swift")
  }

  /** An `AppDelegate.m` or `AppDelegate.swift` file anywhere under `ios/`. */
  predicate IsAppDelegateEntry(rel: string) {
    IsObjcAppDelegateEntry(rel) || IsSwiftAppDelegateEntry(rel)
  }

  /** The language a source path is written in, from its extension. */
  function LanguageOf(path: string): Option<Language> {
    if HasSuffix(path, ".m") then Some(ObjC)
    else if HasSuffix(path, ".swift") then Some(Swift)
    else None
  }

  /** The root-joined paths of the matching entries, in enumeration order. */
  function Candidates(root: string, entries: seq<string>, matches: string -> bool): (r: seq<string>)
    ensures forall p :: p in r <==> exists e :: e in entries && matches(e) && p == Join(root, e)
    ensures forall e :: e in entries && matches(e) ==> Join(root, e) in r
  {
    if |entries| == 0 then []
    else
      var rest := Candidates(root, entries[1..], matches);
      assert forall e :: e in entries <==> e == entries[0] || e in entries[1..];
      if matches(entries[0]) then [Join(root, entries[0])] + rest else rest
  }

  /** The least path in scalar-value order, which the resolver takes first. */
  function Least(s: seq<string>): (r: string)
    requires |s| > 0
    ensures r in s
    ensures forall x :: x in s ==> LexLe(r, x)
  {
    if |s| == 1 then
      LexLeReflexive(s[0]);
      s[0]
    else
      var m := Least(s[1..]);
      assert forall x :: x in s <==> x == s[0] || x in s[1..];
      if LexLe(s[0], m) then
        LexLeReflexive(s[0]);
        assert forall x :: x in s[1..] ==> LexLe(s[0], x) by {
          forall x | x in s[1..] {
            LexLeTransitive(s[0], m, x);
          }
        }
        s[0]
      else
        LexLeTotal(s[0], m);
        m
  }

  /** `s` without any occurrence of `x`, order kept. */
  function Without(s: seq<string>, x: string): (r: seq<string>)
    ensures forall y :: y in r <==> y in s && y != x
    ensures |r| <= |s|
  {
    if |s| == 0 then []
    else
      var rest := Without(s[1..], x);
      assert forall y :: y in s <==> y == s[0] || y in s[1..];
      if s[0] == x then rest else [s[0]] + rest
  }

  /** Settles on `chosen` among `candidates`, warning when any other
      candidate is thereby ignored. */
  function Choose(candidates: seq<string>, chosen: string, category: string, fileKind: string): (r: Resolved<string>)
    requires chosen in candidates
    ensures r.value == chosen
    ensures r.warning.Some? <==> exists p :: p in candidates && p != chosen
    ensures r.warning.Some? ==> r.warning.value == Warning(category, fileKind, chosen, Without(candidates, chosen))
  {
    var ignored := Without(candidates, chosen);
    if |ignored| == 0 then Resolved(chosen, None)
    else
      assert ignored[0] in ignored;
      Resolved(chosen, Some(Warning(category, fileKind, chosen, ignored)))
  }

  function XcodeProjectNotFound(root: string): (e: Error)
    ensures Contains(e.message, root)
  {
    var msg := "Failed to locate the ios/*.xcodeproj files relative to path \"" + root + "\".";
    ContainsSelf(root);
    ContainsInfix("Failed to locate the ios/*.xcodeproj files relative to path \"", root, "\".", root);
    UnexpectedError(msg)
  }

  function AppDelegateNotFound(root: string): (e: Error)
    ensures Contains(e.message, "AppDelegate")
  {
    var before, after := "Could not locate a valid ", " at root: " + Quote(root);
    ContainsSelf("AppDelegate");
    ContainsInfix(before, "AppDelegate", after, "AppDelegate");
    UnexpectedError(before + "AppDelegate" + after)
  }

  /** `getXcodeProjectPath(root)`: the least Xcode project path, or an
      `UnexpectedError` when there is none. */
  function GetXcodeProjectPath(root: string, entries: seq<string>): (r: Result<Resolved<string>, Error>)
    ensures r.Failure? <==> forall e :: e in entries ==> !IsXcodeProjectEntry(e)
    ensures r.Failure? ==> Contains(r.error.message, root)
    ensures r.Success? ==>
      exists e :: e in entries && IsXcodeProjectEntry(e) && r.value.value == Join(root, e)
    ensures r.Success? ==>
      forall e :: e in entries && IsXcodeProjectEntry(e) ==> LexLe(r.value.value, Join(root, e))
    ensures r.Success? ==>
      (r.value.warning.Some? <==>
        exists e :: e in entries && IsXcodeProjectEntry(e) && Join(root, e) != r.value.value)
    ensures r.Success? && r.value.warning.Some? ==>
      var w := r.value.warning.value;
      && w.category == XcodeProjectCategory
      && w.fileKind == "*.xcodeproj"
      && w.chosen == r.value.value
      && w.ignored == Without(Candidates(root, entries, IsXcodeProjectEntry), w.chosen)
      && forall p :: p in w.ignored <==>
           p != w.chosen && exists e :: e in entries && IsXcodeProjectEntry(e) && p == Join(root, e)
  {
    var candidates := Candidates(root, entries, IsXcodeProjectEntry);
    if |candidates| == 0 then
      Failure(XcodeProjectNotFound(root))
    else
      assert candidates[0] in candidates;
      Success(Choose(candidates, Least(candidates), XcodeProjectCategory, "*.xcodeproj"))
  }

  lemma ObjcEntryLanguage(root: string, e: string)
    requires IsObjcAppDelegateEntry(e)
    ensures LanguageOf(Join(root, e)) == Some(ObjC)
  {
  }

  lemma SwiftEntryLanguage(root: string, e: string)
    requires IsSwiftAppDelegateEntry(e)
    ensures LanguageOf(Join(root, e)) == Some(Swift)
  {
    assert HasSuffix(e, ".swift");
    SuffixOfConcat(root + "/", e, ".swift");
    var path := Join(root, e);
    assert path[|path| - 1] == 't';
  }

  /** The AppDelegate `getAppDelegate` settles on when at least one exists:
      an Objective-C `AppDelegate.m` when there is one, otherwise an
      `AppDelegate.swift`; the least path within the preferred language. */
  function PreferredAppDelegate(root: string, entries: seq<string>): (a: AppDelegate)
    requires exists e :: e in entries && IsAppDelegateEntry(e)
    ensures exists e :: e in entries && IsAppDelegateEntry(e) && a.path == Join(root, e)
    ensures LanguageOf(a.path) == Some(a.language)
    ensures a.language == ObjC <==> exists e :: e in entries && IsObjcAppDelegateEntry(e)
    ensures forall e :: e in entries && IsObjcAppDelegateEntry(e) ==> LexLe(a.path, Join(root, e))
    ensures a.language == Swift ==>
      forall e :: e in entries && IsSwiftAppDelegateEntry(e) ==> LexLe(a.path, Join(root, e))
  {
    var objc := Candidates(root, entries, IsObjcAppDelegateEntry);
    if |objc| > 0 then
      var path := Least(objc);
      var e :| e in entries && IsObjcAppDelegateEntry(e) && path == Join(root, e);
      ObjcEntryLanguage(root, e);
      AppDelegate(path, ObjC)
    else
      var swift := Candidates(root, entries, IsSwiftAppDelegateEntry);
      var e0 :| e0 in entries && IsAppDelegateEntry(e0);
      assert Join(root, e0) in swift;
      var path := Least(swift);
      var e :| e in entries && IsSwiftAppDelegateEntry(e) && path == Join(root, e);
      SwiftEntryLanguage(root, e);
      AppDelegate(path, Swift)
  }

  /** `getAppDelegate(root)`: the preferred AppDelegate, warning when other
      candidates are ignored; an `UnexpectedError` when there is none. */
  function GetAppDelegate(root: string, entries: seq<string>): (r: Result<Resolved<AppDelegate>, Error>)
    ensures r.Failure? <==> forall e :: e in entries ==> !IsAppDelegateEntry(e)
    ensures r.Failure? ==> Contains(r.error.message, "AppDelegate")
    ensures r.Success? ==> r.value.value == PreferredAppDelegate(root, entries)
    ensures r.Success? ==>
      (r.value.warning.Some? <==>
        exists e :: e in entries && IsAppDelegateEntry(e) && Join(root, e) != r.value.value.path)
    ensures r.Success? && r.value.warning.Some? ==>
      var w := r.value.warning.value;
      && w.category == AppDelegateCategory
      && w.fileKind == "AppDelegate"
      && w.chosen == r.value.value.path
      && w.ignored == Without(Candidates(root, entries, IsAppDelegateEntry), w.chosen)
      && forall p :: p in w.ignored <==>
           p != w.chosen && exists e :: e in entries && IsAppDelegateEntry(e) && p == Join(root, e)
  {
    var candidates := Candidates(root, entries, IsAppDelegateEntry);
    if |candidates| == 0 then
      Failure(AppDelegateNotFound(root))
    else
      assert candidates[0] in candidates;
      var a := PreferredAppDelegate(root, entries);
      Success(Resolved(a, Choose(candidates, a.path, AppDelegateCategory, "AppDelegate").warning))
  }

  /** Removing a path from a list built in two parts removes it from each
      part and keeps the parts, and so every element, in their order. */
  lemma {:induction false} WithoutAppend(a: seq<string>, b: seq<string>, x: string)
    ensures Without(a + b, x) == Without(a, x) + Without(b, x)
  {
    if |a| == 0 {
      assert a + b == b;
    } else {
      assert (a + b)[0] == a[0];
      assert (a + b)[1..] == a[1..] + b;
      WithoutAppend(a[1..], b, x);
    }
  }

  /** A single path is kept exactly when it is not the one removed. */
  lemma WithoutSingle(y: string, x: string)
    ensures Without([y], x) == if y == x then [] else [y]
  {
  }

  /** The least element does not depend on the order the elements come in. */
  lemma LeastIgnoresOrder(a: seq<string>, b: seq<string>)
    requires |a| > 0 && |b| > 0
    requires forall x :: x in a <==> x in b
    ensures Least(a) == Least(b)
  {
    assert Least(a) in b;
    assert Least(b) in a;
    LexLeAntisymmetric(Least(a), Least(b));
  }

  /** The Xcode project chosen is the same whatever order the filesystem
      lists the entries in: the choice is reproducible. */
  lemma XcodeProjectIgnoresEnumerationOrder(root: string, entries: seq<string>, entries': seq<string>)
    requires forall e :: e in entries <==> e in entries'
    ensures GetXcodeProjectPath(root, entries).Success? == GetXcodeProjectPath(root, entries').Success?
    ensures GetXcodeProjectPath(root, entries).Success? ==>
      GetXcodeProjectPath(root, entries).value.value == GetXcodeProjectPath(root, entries').value.value
  {
    var c := Candidates(root, entries, IsXcodeProjectEntry);
    var c' := Candidates(root, entries', IsXcodeProjectEntry);
    assert forall p :: p in c <==> p in c';
    if |c| > 0 {
      assert c[0] in c';
      LeastIgnoresOrder(c, c');
    }
  }

  /** A header file is never the resolved AppDelegate. */
  lemma AppDelegateIsNeverHeader(root: string, entries: seq<string>)
    requires GetAppDelegate(root, entries).Success?
    ensures !HasSuffix(GetAppDelegate(root, entries).value.value.path, ".h")
  {
  }

  lemma {:induction false} QuotedListNamesEach(paths: seq<string>, p: string)
    requires p in paths
    ensures Contains(QuotedList(paths), Quote(p))
  {
    ContainsSelf(Quote(p));
    if |paths| == 1 {
      assert QuotedList(paths) == "" + Quote(p) + "";
      ContainsInfix("", Quote(p), "", Quote(p));
    } else if paths[0] == p {
      ContainsInfix("", Quote(p), "," + QuotedList(paths[1..]), Quote(p));
      assert QuotedList(paths) == "" + Quote(p) + ("," + QuotedList(paths[1..]));
    } else {
      QuotedListNamesEach(paths[1..], p);
      ContainsInfix(Quote(paths[0]) + ",", QuotedList(paths[1..]), "", Quote(p));
      assert QuotedList(paths) == Quote(paths[0]) + "," + QuotedList(paths[1..]) + "";
    }
  }

  /** A warning's message quotes the chosen path and every ignored path. */
  lemma WarningMessageNamesPaths(w: Warning)
    ensures Contains(w.Message(), Quote(w.chosen))
    ensures forall p :: p in w.ignored ==> Contains(w.Message(), Quote(p))
  {
    var head := "Found multiple " + w.fileKind + " file paths, using ";
    var tail := ". Ignored paths: [" + QuotedList(w.ignored) + "]";
    ContainsSelf(Quote(w.chosen));
    ContainsInfix(head, Quote(w.chosen), tail, Quote(w.chosen));
    assert w.Message() == head + Quote(w.chosen) + tail;
    forall p | p in w.ignored
      ensures Contains(w.Message(), Quote(p))
    {
      QuotedListNamesEach(w.ignored, p);
      ContainsInfix(head + Quote(w.chosen) + ". Ignored paths: [", QuotedList(w.ignored), "]", Quote(p));
      assert w.Message() == head + Quote(w.chosen) + ". Ignored paths: [" + QuotedList(w.ignored) + "]";
    }
  }
}
