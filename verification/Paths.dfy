/** path/filepath on Unix: Clean, Join and IsAbs, as lexical operations. */
module Paths {
  import opened Text

  predicate IsAbs(p: string) { HasPrefix(p, "/") }

  /** One element of the path against the elements kept so far. */
  function PushElement(rooted: bool, kept: seq<string>, e: string): seq<string> {
    if e == "" || e == "." then kept
    else if e != ".." then kept + [e]
    else if kept != [] && kept[|kept| - 1] != ".." then kept[..|kept| - 1]
    else if rooted then kept
    else kept + [e]
  }

  function PushAll(rooted: bool, kept: seq<string>, es: seq<string>): seq<string>
    decreases |es|
  {
    if es == [] then kept else PushAll(rooted, PushElement(rooted, kept, es[0]), es[1..])
  }

  function Render(rooted: bool, kept: seq<string>): string {
    if rooted then "/" + Join(kept, '/')
    else if kept == [] then "." else Join(kept, '/')
  }

  /** filepath.Clean */
  function Clean(p: string): string {
    Render(IsAbs(p), PushAll(IsAbs(p), [], Split(p, '/')))
  }

  /** filepath.Join */
  function JoinPath(elements: seq<string>): string {
    if elements == [] then ""
    else if elements[0] == "" then JoinPath(elements[1..])
    else Clean(Join(elements, '/'))
  }

  /** A path element that Clean keeps as it is. */
  predicate Plain(e: string) { e != "" && e != "." && e != ".." && '/' !in e }

  predicate AllPlain(es: seq<string>) { forall e :: e in es ==> Plain(e) }

  /** What Clean keeps: ".." only at the front of a relative path. */
  predicate Normal(rooted: bool, kept: seq<string>) {
    && (forall i :: 0 <= i < |kept| ==> kept[i] == ".." || Plain(kept[i]))
    && (forall i :: 0 <= i < |kept| && kept[i] == ".." ==> !rooted && forall j :: 0 <= j < i ==> kept[j] == "..")
  }

  lemma {:induction false} PushAllNormal(rooted: bool, kept: seq<string>, es: seq<string>)
    requires Normal(rooted, kept) && forall e :: e in es ==> '/' !in e
    ensures Normal(rooted, PushAll(rooted, kept, es))
    decreases |es|
  {
    if es != [] {
      assert es[0] in es;
      PushAllNormal(rooted, PushElement(rooted, kept, es[0]), es[1..]);
    }
  }

  lemma {:induction false} PushAllConcat(rooted: bool, kept: seq<string>, x: seq<string>, y: seq<string>)
    ensures PushAll(rooted, kept, x + y) == PushAll(rooted, PushAll(rooted, kept, x), y)
    decreases |x|
  {
    if x == [] {
      assert x + y == y;
    } else {
      assert (x + y)[0] == x[0] && (x + y)[1..] == x[1..] + y;
      PushAllConcat(rooted, PushElement(rooted, kept, x[0]), x[1..], y);
    }
  }

  /** Pushing elements that are already in normal form just appends them. */
  lemma {:induction false} PushAllOfNormal(rooted: bool, kept: seq<string>, es: seq<string>)
    requires Normal(rooted, kept + es)
    ensures PushAll(rooted, kept, es) == kept + es
    decreases |es|
  {
    if es == [] {
      assert kept + es == kept;
    } else {
      assert (kept + es)[|kept|] == es[0];
      if es[0] == ".." && kept != [] { assert (kept + es)[|kept| - 1] == kept[|kept| - 1] == ".."; }
      assert PushElement(rooted, kept, es[0]) == kept + [es[0]];
      assert kept + es == (kept + [es[0]]) + es[1..];
      PushAllOfNormal(rooted, kept + [es[0]], es[1..]);
    }
  }

  lemma {:induction false} SplitElements(s: string)
    ensures forall e :: e in Split(s, '/') ==> '/' !in e
  {
    if s != "" {
      SplitElements(s[1..]);
      var rest := Split(s[1..], '/');
      forall e | e in SplitStep(s[0], '/', rest) ensures '/' !in e {
        if s[0] != '/' && e == [s[0]] + rest[0] { assert rest[0] in rest; }
      }
    }
  }

  /** Clean reads a rendered normal form back as it is. */
  lemma CleanRender(rooted: bool, kept: seq<string>)
    requires Normal(rooted, kept)
    ensures Clean(Render(rooted, kept)) == Render(rooted, kept)
    ensures IsAbs(Render(rooted, kept)) <==> rooted
  {
    RenderElements(rooted, kept);
    PushAllOfNormal(rooted, [], kept);
    assert [] + kept == kept;
  }

  /** What Clean makes of the elements of a rendered path. */
  lemma RenderElements(rooted: bool, kept: seq<string>)
    requires Normal(rooted, kept)
    ensures IsAbs(Render(rooted, kept)) <==> rooted
    ensures PushAll(rooted, [], Split(Render(rooted, kept), '/')) == PushAll(rooted, [], kept)
  {
    var p := Render(rooted, kept);
    if kept == [] {
      if rooted {
        assert p == "" + ['/'] + "";
        SplitConcat("", '/', "");
        assert Split(p, '/') == ["", ""];
        PushTwoBlanks(rooted);
      } else {
        SplitPlain(".", '/');
        assert PushAll(rooted, [], ["."]) == PushAll(rooted, [], []);
      }
    } else {
      forall e | e in kept ensures '/' !in e {
        var i :| 0 <= i < |kept| && kept[i] == e;
      }
      SplitJoin(kept, '/');
      JoinHead(kept);
      if rooted {
        assert p == "" + ['/'] + Join(kept, '/');
        SplitConcat("", '/', Join(kept, '/'));
        assert Split(p, '/') == [""] + kept;
        PushAllConcat(rooted, [], [""], kept);
        assert PushAll(rooted, [], [""]) == [];
      }
    }
  }

  lemma PushTwoBlanks(rooted: bool)
    ensures PushAll(rooted, [], ["", ""]) == []
  {
    assert PushAll(rooted, [], ["", ""]) == PushAll(rooted, [], ["", ""][1..]);
    assert ["", ""][1..] == [""];
  }

  lemma JoinHead(kept: seq<string>)
    requires kept != [] && kept[0] != "" && '/' !in kept[0]
    ensures Join(kept, '/') != "" && Join(kept, '/')[0] != '/'
  {
    assert kept[0][0] in kept[0];
  }

  lemma CleanForm(p: string)
    ensures exists kept :: Normal(IsAbs(p), kept) && Clean(p) == Render(IsAbs(p), kept)
  {
    SplitElements(p);
    PushAllNormal(IsAbs(p), [], Split(p, '/'));
  }

  /** Cleaning twice is cleaning once, and cleaning keeps a path absolute or relative. */
  lemma CleanIdempotent(p: string)
    ensures Clean(Clean(p)) == Clean(p)
    ensures IsAbs(Clean(p)) <==> IsAbs(p)
  {
    CleanForm(p);
    var kept :| Normal(IsAbs(p), kept) && Clean(p) == Render(IsAbs(p), kept);
    CleanRender(IsAbs(p), kept);
  }

  /** A cleaned absolute directory, without the slash when it is the root. */
  function DirPrefix(base: string): string { if base == "/" then "" else base }

  lemma ElementsBelow(kept: seq<string>, es: seq<string>)
    requires Normal(true, kept) && es != [] && AllPlain(es)
    ensures PushAll(true, [], Split(Render(true, kept) + ['/'] + Join(es, '/'), '/')) == kept + es
  {
    SplitConcat(Render(true, kept), '/', Join(es, '/'));
    SplitJoin(es, '/');
    PushAllConcat(true, [], Split(Render(true, kept), '/'), es);
    RenderElements(true, kept);
    PushAllOfNormal(true, [], kept);
    assert [] + kept == kept;
    NormalAppend(kept, es);
    PushAllOfNormal(true, kept, es);
  }

  lemma NormalAppend(kept: seq<string>, es: seq<string>)
    requires Normal(true, kept) && AllPlain(es)
    ensures Normal(true, kept + es)
  {
    forall i | 0 <= i < |kept + es| ensures Plain((kept + es)[i]) {
      if i >= |kept| { assert es[i - |kept|] in es; }
    }
  }

  /** Joining plain names below a clean absolute directory only puts slashes between them. */
  lemma JoinBelow(base: string, es: seq<string>)
    requires IsAbs(base) && Clean(base) == base
    requires es != [] && AllPlain(es)
    ensures Clean(base + ['/'] + Join(es, '/')) == DirPrefix(base) + ['/'] + Join(es, '/')
  {
    CleanForm(base);
    var kept :| Normal(true, kept) && base == Render(true, kept);
    hide PushAll, Split, Normal, AllPlain, Join;
    ElementsBelow(kept, es);
    RenderBelow(kept, es);
    assert IsAbs(base + ['/'] + Join(es, '/'));
  }

  /** Elements that lead back to a clean directory add nothing to it. */
  lemma LeadsBack(base: string, text: string)
    requires IsAbs(base) && Clean(base) == base && forall kept :: PushAll(true, kept, Split(text, '/')) == kept
    ensures Clean(base + ['/'] + text) == base
  {
    hide Split;
    SplitConcat(base, '/', text);
    PushAllConcat(true, [], Split(base, '/'), Split(text, '/'));
  }

  /** Below a clean absolute directory, going down to a plain name and up again, staying with ".", and
      repeating the slash all lead back to the directory. */
  lemma CleanResolves(base: string, e: string)
    requires IsAbs(base) && Clean(base) == base && Plain(e)
    ensures Clean(base + ['/'] + (e + ['/'] + "..")) == Clean(base + ['/'] + ".") == Clean(base + ['/'] + "") == base
  {
    DottedElements(e);
    hide Split, PushAll, Plain;
    forall kept: seq<string>
      ensures PushAll(true, kept, [e, ".."]) == PushAll(true, kept, ["."]) == PushAll(true, kept, [""]) == kept
    {
      PushOne(kept, e);
    }
    LeadsBack(base, e + ['/'] + "..");
    LeadsBack(base, ".");
    LeadsBack(base, "");
  }

  lemma DottedElements(e: string)
    requires Plain(e)
    ensures Split(e + ['/'] + "..", '/') == [e, ".."] && Split(".", '/') == ["."] && Split("", '/') == [""]
  {
    SplitPlain(e, '/');
    SplitPlain("..", '/');
    SplitPlain(".", '/');
    SplitPlain("", '/');
    hide Split;
    SplitConcat(e, '/', "..");
  }

  lemma PushOne(kept: seq<string>, e: string)
    requires Plain(e)
    ensures PushAll(true, kept, ["."]) == PushAll(true, kept, [""]) == PushAll(true, kept, [e, ".."]) == kept
  {
    assert PushAll(true, kept, [e, ".."]) == PushAll(true, kept + [e], [e, ".."][1..]) && [e, ".."][1..] == [".."];
  }

  lemma RenderBelow(kept: seq<string>, es: seq<string>)
    requires Normal(true, kept) && es != []
    ensures Render(true, kept + es) == DirPrefix(Render(true, kept)) + ['/'] + Join(es, '/')
  {
    if kept == [] {
      assert kept + es == es && Render(true, kept) == "/";
    } else {
      JoinConcat(kept, es);
      JoinHead(kept);
      hide Join, Normal;
      var a, b := Join(kept, '/'), Join(es, '/');
      assert "/" + (a + "/" + b) == ("/" + a) + ['/'] + b;
    }
  }

  lemma {:induction false} JoinConcat(x: seq<string>, y: seq<string>)
    requires x != [] && y != []
    ensures Join(x + y, '/') == Join(x, '/') + "/" + Join(y, '/')
  {
    if |x| == 1 {
      assert (x + y)[1..] == y;
    } else {
      assert (x + y)[1..] == x[1..] + y;
      JoinConcat(x[1..], y);
    }
  }

  // ---------------------------------------------------------------- managed names

  predicate Alphanumeric(c: char) { 'a' <= c <= 'z' || 'A' <= c <= 'Z' || '0' <= c <= '9' }

  /** managedVolumeNamePattern */
  predicate ManagedName(s: string) {
    && 1 <= |s| <= 64 && Alphanumeric(s[0])
    && forall i :: 1 <= i < |s| ==> Alphanumeric(s[i]) || s[i] == '_' || s[i] == '.' || s[i] == '-'
  }

  lemma ManagedNameIsPlain(s: string)
    requires ManagedName(s)
    ensures Plain(s) && Trimmed(s) && ':' !in s
  {
  }
}
