/**
 Namespaced tool names in flat Chat function names: `ns.tool` travels as `virgil_ns_ns__tool`.

 Neither direction is lossless for every name; each is proved to be lossless exactly when a stated test on the name
 holds.
 */
module NamespaceNames {
  import opened Wrappers

  const PREFIX := "virgil_ns_"

  predicate OccursAt(s: string, sep: string, i: nat) { i + |sep| <= |s| && s[i..i + |sep|] == sep }

  ghost predicate Contains(s: string, sep: string) { exists i: nat :: OccursAt(s, sep, i) }

  /** The place of the first occurrence at or after `from`. */
  function Find(s: string, sep: string, from: nat): (r: Option<nat>)
    requires from <= |s|
    ensures r.Some? ==> from <= r.value && OccursAt(s, sep, r.value) && forall i: nat :: from <= i < r.value ==>
        !OccursAt(s, sep, i)
    ensures r.None? ==> forall i: nat :: from <= i ==> !OccursAt(s, sep, i)
    decreases |s| - from
  {
    if OccursAt(s, sep, from) then Some(from)
    else if from == |s| then None
    else Find(s, sep, from + 1)
  }

  /** The text before and after the first occurrence of `sep`. */
  function Cut(s: string, sep: string): (r: Option<(string, string)>)
    ensures r.Some? <==> Contains(s, sep)
    ensures r.Some? ==> s == r.value.0 + sep + r.value.1 && forall i: nat :: i < |r.value.0| ==> !OccursAt(s, sep, i)
  {
    var at := Find(s, sep, 0);
    if at.None? then None
    else
      assert s == s[..at.value] + s[at.value..at.value + |sep|] + s[at.value + |sep|..];
      Some((s[..at.value], s[at.value + |sep|..]))
  }

  function Encode(name: string): string {
    match Cut(name, ".")
    case Some((ns, member)) => PREFIX + ns + "__" + member
    case None => name
  }

  function Decode(name: string): string {
    if PREFIX <= name then
      match Cut(name[|PREFIX|..], "__")
      case Some((ns, member)) => ns + "." + member
      case None => name
    else name
  }

  // ---------------------------------------------------------------- cutting

  /** The first occurrence determines the cut. */
  lemma CutAt(s: string, sep: string, a: string, b: string)
    requires s == a + sep + b && forall i: nat :: i < |a| ==> !OccursAt(s, sep, i)
    ensures Cut(s, sep) == Some((a, b))
  {
    assert s[|a|..|a| + |sep|] == sep;
    assert OccursAt(s, sep, |a|);
    var (x, y) := Cut(s, sep).value;
    assert s[|x|..|x| + |sep|] == sep;
    assert OccursAt(s, sep, |x|);
    assert |x| == |a|;
    assert s[..|a|] == a && s[..|x|] == x && s[|a| + |sep|..] == b && s[|x| + |sep|..] == y;
  }

  lemma DotAt(s: string, i: nat)
    ensures OccursAt(s, ".", i) <==> i < |s| && s[i] == '.'
  {
  }

  lemma NoDots(s: string)
    ensures Contains(s, ".") <==> '.' in s
  {
    forall i: nat
      ensures OccursAt(s, ".", i) <==> i < |s| && s[i] == '.'
    {
      DotAt(s, i);
    }
    if '.' in s {
      var i :| 0 <= i < |s| && s[i] == '.';
      assert OccursAt(s, ".", i);
    }
  }

  /** A string without dots, a dot, and anything: the cut is there. */
  lemma CutDotted(ns: string, member: string)
    requires '.' !in ns
    ensures Cut(ns + "." + member, ".") == Some((ns, member))
  {
    var s := ns + "." + member;
    forall i: nat | i < |ns|
      ensures !OccursAt(s, ".", i)
    {
      DotAt(s, i);
      assert s[i] == ns[i];
    }
    CutAt(s, ".", ns, member);
  }

  /** The separator `__` can be found early: in the namespace, or as its last underscore and the separator's first. */
  predicate Clean(ns: string) { Find(ns + "_", "__", 0).None? }

  lemma CutEncoded(ns: string, member: string)
    ensures Cut(ns + "__" + member, "__") == Some((ns, member)) <==> Clean(ns)
  {
    var s, t := ns + "__" + member, ns + "_";
    forall i: nat | i < |ns|
      ensures OccursAt(s, "__", i) <==> OccursAt(t, "__", i)
    {
      assert i + 2 <= |t|;
      assert s[i..i + 2] == t[i..i + 2];
    }
    if Clean(ns) {
      CutAt(s, "__", ns, member);
    } else {
      var i := Find(t, "__", 0).value;
      assert OccursAt(s, "__", i);
    }
  }

  /** In the words of the namespace itself. */
  lemma CleanMeans(ns: string)
    ensures Clean(ns) <==> !Contains(ns, "__") && (ns == "" || ns[|ns| - 1] != '_')
  {
    var t := ns + "_";
    forall i: nat | i + 2 <= |ns|
      ensures OccursAt(ns, "__", i) <==> OccursAt(t, "__", i)
    {
      assert ns[i..i + 2] == t[i..i + 2];
    }
    if ns != "" {
      TwoUnderscores(t, |ns| - 1);
    }
  }

  lemma TwoUnderscores(s: string, i: nat)
    requires i + 2 <= |s|
    ensures OccursAt(s, "__", i) <==> s[i] == '_' && s[i + 1] == '_'
  {
  }

  // ---------------------------------------------------------------- decoding undoes encoding

  /** What a caller can test before it relies on `Decode(Encode(name)) == name`. */
  predicate SurvivesEncoding(name: string) {
    match Cut(name, ".")
    case Some((ns, _)) => Clean(ns)
    case None => !(PREFIX <= name) || Cut(name[|PREFIX|..], "__").None?
  }

  lemma EncodedTail(ns: string, member: string)
    ensures PREFIX <= PREFIX + ns + "__" + member
    ensures (PREFIX + ns + "__" + member)[|PREFIX|..] == ns + "__" + member
  {
  }

  lemma FirstDot(name: string)
    requires Cut(name, ".").Some?
    ensures '.' !in Cut(name, ".").value.0
  {
    var ns := Cut(name, ".").value.0;
    forall i | 0 <= i < |ns|
      ensures ns[i] != '.'
    {
      DotAt(name, i);
      assert name[i] == ns[i];
    }
  }

  /** Decoding undoes encoding exactly for these names. */
  lemma DecodeUndoesEncodeExactlyWhen(name: string)
    ensures Decode(Encode(name)) == name <==> SurvivesEncoding(name)
  {
    match Cut(name, ".") {
      case Some((ns, member)) =>
        EncodedTail(ns, member);
        CutEncoded(ns, member);
        FirstDot(name);
        var cut := Cut(ns + "__" + member, "__");
        assert Contains(ns + "__" + member, "__") by {
          assert (ns + "__" + member)[|ns|..|ns| + 2] == "__";
          assert OccursAt(ns + "__" + member, "__", |ns|);
        }
        var (x, y) := cut.value;
        assert Decode(Encode(name)) == x + "." + y;
        if x + "." + y == ns + "." + member {
          CutAtSameDot(x, y, ns, member);
        }
      case None =>
        NoDots(name);
        if !SurvivesEncoding(name) {
          var (x, y) := Cut(name[|PREFIX|..], "__").value;
          assert (x + "." + y)[|x|] == '.';
        }
    }
  }

  /** The found separator is no later than the real one, so an equal text has its dot in the same place. */
  lemma CutAtSameDot(x: string, y: string, ns: string, member: string)
    requires '.' !in ns && x + "." + y == ns + "." + member && x + "__" + y == ns + "__" + member
    ensures x == ns && y == member
  {
    var s := ns + "." + member;
    assert s[|x|] == '.';
    assert |x| >= |ns|;
    var v, w := x + "__" + y, x + "." + y;
    assert v[|ns|] == '_' && w[|ns|] == '.';
    assert s[..|ns|] == ns && s[..|x|] == x && s[|ns| + 1..] == member && s[|x| + 1..] == y;
  }

  // ---------------------------------------------------------------- encoding undoes decoding

  /** What a model's answer must satisfy for the call to be sent back under the name the model knows. */
  predicate SurvivesDecoding(name: string) {
    if PREFIX <= name && Cut(name[|PREFIX|..], "__").Some? then '.' !in Cut(name[|PREFIX|..], "__").value.0
        else '.' !in name
  }

  lemma DecodedWithDot(ns: string, member: string)
    ensures Encode(ns + "." + member) == PREFIX + ns + "__" + member <==> '.' !in ns
  {
    hide Cut, Find, OccursAt;
    var decoded := ns + "." + member;
    if '.' !in ns {
      CutDotted(ns, member);
    } else {
      NoDots(decoded);
      assert '.' in decoded;
      FirstDot(decoded);
      var (x, y) := Cut(decoded, ".").value;
      if PREFIX + x + "__" + y == PREFIX + ns + "__" + member {
        EncodedTail(x, y);
        EncodedTail(ns, member);
        CutAtSameDot(ns, member, x, y);
      }
    }
  }

  /** A dotted name that does not look encoded does not come back either: it would be sent encoded. */
  lemma PlainWithDot(name: string)
    requires !(PREFIX <= name && Cut(name[|PREFIX|..], "__").Some?)
    ensures Encode(name) == name <==> '.' !in name
  {
    NoDots(name);
    if '.' in name {
      FirstDot(name);
      var (x, y) := Cut(name, ".").value;
      var tail := x + "__" + y;
      EncodedTail(x, y);
      assert tail[|x|..|x| + 2] == "__";
      assert OccursAt(tail, "__", |x|);
    }
  }

  /** Encoding undoes decoding exactly for these names; a plain function name with a dot comes back namespaced. */
  lemma EncodeUndoesDecodeExactlyWhen(name: string)
    ensures Encode(Decode(name)) == name <==> SurvivesDecoding(name)
  {
    hide Encode, Find, OccursAt;
    if PREFIX <= name && Cut(name[|PREFIX|..], "__").Some? {
      var (ns, member) := Cut(name[|PREFIX|..], "__").value;
      assert name == PREFIX + name[|PREFIX|..];
      assert name == PREFIX + ns + "__" + member;
      DecodedWithDot(ns, member);
    } else {
      PlainWithDot(name);
    }
  }

  // ---------------------------------------------------------------- declared tools

  /** What is sent and what comes back, letter by letter: a dotted name travels behind a prefix, any other as it is. */
  lemma SentExactlyAs(ns: string, name: string)
    requires '.' !in ns
    ensures Encode(ns + "." + name) == "virgil_ns_" + ns + "__" + name
    ensures Encode(ns) == ns
  {
    CutDotted(ns, name);
    NoDots(ns);
  }

  /** The tools a request may declare, and the names they are sent under. */
  datatype Tool = Function(name: string) | Member(ns: string, name: string)

  predicate Declarable(t: Tool) {
    match t
    case Function(name) => name != "" && !(PREFIX <= name)
    case Member(ns, name) => ns != "" && name != "" && Cut(ns, "__").None?
  }

  function SentAs(t: Tool): string {
    match t
    case Function(name) => name
    case Member(ns, name) => Encode(ns + "." + name)
  }

  function Known(t: Tool): string {
    match t
    case Function(name) => name
    case Member(ns, name) => ns + "." + name
  }

  /** The part of a namespace before its first dot; the rest travels with the tool's own name. */
  function FirstPart(ns: string): string {
    match Cut(ns, ".")
    case Some((first, _)) => first
    case None => ns
  }

  predicate EndsClean(ns: string) { FirstPart(ns) == "" || FirstPart(ns)[|FirstPart(ns)| - 1] != '_' }

  lemma CutFull(ns: string, name: string)
    ensures FirstPart(ns) <= ns && Cut(ns + "." + name, ".").Some? && Cut(ns + "." + name, ".").value.0 == FirstPart(ns)
  {
    hide Cut, Find, OccursAt;
    NoDots(ns);
    var full := ns + "." + name;
    match Cut(ns, ".") {
      case Some((first, rest)) =>
        FirstDot(ns);
        assert full == first + "." + (rest + "." + name);
        CutDotted(first, rest + "." + name);
      case None =>
        CutDotted(ns, name);
    }
  }

  lemma PartContains(part: string, whole: string, sep: string)
    requires part <= whole && Contains(part, sep)
    ensures Contains(whole, sep)
  {
    var i: nat :| OccursAt(part, sep, i);
    assert whole[i..i + |sep|] == part[i..i + |sep|];
    assert OccursAt(whole, sep, i);
  }

  /** A call by the model of a declared tool is answered under the name the client declared exactly when this holds. */
  lemma DeclaredToolsComeBackExactlyWhen(t: Tool)
    requires Declarable(t)
    ensures Decode(SentAs(t)) == Known(t) <==> t.Function? || EndsClean(t.ns)
  {
    if t.Member? {
      hide Cut, FirstPart, Clean, Encode, Decode, OccursAt;
      CutFull(t.ns, t.name);
      DecodeUndoesEncodeExactlyWhen(t.ns + "." + t.name);
      CleanMeans(FirstPart(t.ns));
      if Contains(FirstPart(t.ns), "__") {
        PartContains(FirstPart(t.ns), t.ns, "__");
      }
    }
  }

  /** So two declared tools that both come back are never sent under one name. */
  lemma DeclaredToolsStayApart(a: Tool, b: Tool)
    requires Declarable(a) && Declarable(b) && (a.Member? ==> EndsClean(a.ns)) && (b.Member? ==> EndsClean(b.ns))
    ensures SentAs(a) == SentAs(b) ==> Known(a) == Known(b)
  {
    hide EndsClean, SentAs, Decode, Declarable, Known;
    DeclaredToolsComeBackExactlyWhen(a);
    DeclaredToolsComeBackExactlyWhen(b);
  }

  /** A trailing underscore is all it takes: such a namespace is declarable, and none of its tools comes back. */
  lemma TrailingUnderscoreIsLost(name: string)
    requires name != ""
    ensures Declarable(Member("_", name)) && Decode(SentAs(Member("_", name))) != "_." + name
  {
    NoDots("_");
    DeclaredToolsComeBackExactlyWhen(Member("_", name));
    assert "_" + "." + name == "_." + name;
  }
}
