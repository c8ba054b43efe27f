/** The tokens of a JSON document: whatever its white space, the tokenizer finds its tree. */
module Documents {
  import opened Wrappers
  import opened Json

  /** A string or primitive by its characters, or an array or object. */
  datatype Value =
    | Quoted(body: string)
    | Plain(body: string)
    | Node(kind: Kind, pad: string, parts: Parts)

  /** The parts of an array or object, each with the white space around it; those of an object have keys. */
  datatype Parts =
    | End
    | Part(lead: string, key: Key, v: Value, trail: string, rest: Parts)

  datatype Key = NoKey | Key(name: string, before: string, after: string)

  predicate Spaces(s: string) { forall i :: 0 <= i < |s| ==> IsSpace(s[i]) }

  /** The characters between quotes. */
  predicate IsBody(s: string) {
    if s == "" then true
    else if s[0] == '\\' then
      && |s| >= 2
      && if s[1] == 'u' then |s| >= 6 && IsHex(s[2]) && IsHex(s[3]) && IsHex(s[4]) && IsHex(s[5]) && IsBody(s[6..])
         else IsEscape(s[1]) && IsBody(s[2..])
    else s[0] != '"' && s[0] != '\0' && IsBody(s[1..])
  }

  /** Numbers, true, false and null are such. */
  predicate IsPlain(s: string) {
    s != "" && IsPrimitiveStart(s[0]) && forall i :: 0 <= i < |s| ==> ' ' <= s[i] < '\U{7f}' && !IsDelimiter(s[i])
  }

  predicate Valid(v: Value)
    decreases v
  {
    match v
    case Quoted(body) => IsBody(body)
    case Plain(body) => IsPlain(body)
    case Node(kind, pad, parts) => (kind.Object? || kind.Array?) && Spaces(pad) && ValidParts(kind, parts)
  }

  predicate ValidParts(kind: Kind, ps: Parts)
    decreases ps
  {
    match ps
    case End => true
    case Part(lead, key, v, trail, rest) =>
      && Spaces(lead) && Spaces(trail) && ValidKey(key) && (key.Key? <==> kind.Object?)
      && Valid(v) && ValidParts(kind, rest)
  }

  predicate ValidKey(key: Key) {
    key.Key? ==> IsBody(key.name) && Spaces(key.before) && Spaces(key.after)
  }

  // The text.

  function Opening(kind: Kind): char { if kind.Object? then '{' else '[' }

  function Ending(kind: Kind): char { if kind.Object? then '}' else ']' }

  function Spelling(v: Value): string
    decreases v
  {
    match v
    case Quoted(body) => "\"" + body + "\""
    case Plain(body) => body
    case Node(kind, pad, parts) => [Opening(kind)] + pad + SpellParts(kind, parts, true)
  }

  function SpellParts(kind: Kind, ps: Parts, first: bool): string
    decreases ps
  {
    match ps
    case End => [Ending(kind)]
    case Part(lead, key, v, trail, rest) =>
      Comma(first) + lead + SpellKey(key) + Spelling(v) + trail + SpellParts(kind, rest, false)
  }

  function Comma(first: bool): string { if first then "" else "," }

  function SpellKey(key: Key): string {
    if key.NoKey? then "" else "\"" + key.name + "\"" + key.before + ":" + key.after
  }

  // The tokens: kinds, the parts of the text, how many children, and the parents.

  function Length(ps: Parts): nat { if ps.End? then 0 else 1 + Length(ps.rest) }

  /** Those of a value at `at` below token `parent`, the first of which has number `i`. */
  function Tree(v: Value, at: nat, parent: int, i: nat): seq<Token>
    decreases v
  {
    match v
    case Quoted(body) => [Token(Text, at + 1, at + 1 + |body|, 0, parent)]
    case Plain(body) => [Token(Primitive, at, at + |body|, 0, parent)]
    case Node(kind, pad, parts) =>
      [Token(kind, at, at + |Spelling(v)|, Length(parts), parent)] + Trees(parts, true, at + 1 + |pad|, i, i + 1)
  }

  /** Those of the parts of token `o`: a value belongs to its key, and a key to the object. */
  function Trees(ps: Parts, first: bool, at: nat, o: nat, i: nat): seq<Token>
    decreases ps, 1
  {
    if ps.End? then []
    else
      var ts := OnePart(ps, first, at, o, i);
      ts + Trees(ps.rest, false, RestAt(ps, first, at), o, i + |ts|)
  }

  function OnePart(ps: Parts, first: bool, at: nat, o: nat, i: nat): seq<Token>
    requires ps.Part?
    decreases ps, 0
  {
    var p := KeyAt(ps, first, at);
    if ps.key.NoKey? then Tree(ps.v, p, o, i)
    else [Token(Text, p + 1, p + 1 + |ps.key.name|, 1, o)] + Tree(ps.v, p + |SpellKey(ps.key)|, i, i + 1)
  }

  function KeyAt(ps: Parts, first: bool, at: nat): nat
    requires ps.Part?
  {
    at + |Comma(first)| + |ps.lead|
  }

  function RestAt(ps: Parts, first: bool, at: nat): nat
    requires ps.Part?
  {
    KeyAt(ps, first, at) + |SpellKey(ps.key)| + |Spelling(ps.v)| + |ps.trail|
  }

  // Where the text has what.

  predicate At(js: string, p: nat, s: string) { p + |s| <= |js| && js[p..p + |s|] == s }

  lemma {:induction false} AtSplit(js: string, p: nat, a: string, b: string)
    requires At(js, p, a + b)
    ensures At(js, p, a) && At(js, p + |a|, b)
  {
    var s := a + b;
    assert js[p..p + |a|] == s[..|a|] == a;
    assert js[p + |a|..p + |a| + |b|] == s[|a|..] == b;
  }

  lemma {:induction false} AtHead(js: string, p: nat, s: string)
    requires At(js, p, s) && s != ""
    ensures js[p] == s[0] && At(js, p + 1, s[1..])
  {
    assert s == s[..1] + s[1..];
    AtSplit(js, p, s[..1], s[1..]);
    assert js[p..p + 1][0] == s[0];
  }

  /** A string ends at its closing quote. */
  lemma {:induction false} BodyEnds(js: string, p: nat, s: string)
    requires IsBody(s) && At(js, p, s + "\"")
    ensures StringEnd(js, p) == Ok(p + |s|)
    decreases |s|
  {
    var t := s + "\"";
    AtHead(js, p, t);
    if s != "" {
      var n := if s[0] != '\\' then 1 else if s[1] == 'u' then 6 else 2;
      assert t == s[..n] + (s[n..] + "\"");
      AtSplit(js, p, s[..n], s[n..] + "\"");
      forall k | 0 <= k < n ensures js[p + k] == s[k] {
        assert js[p..p + n][k] == s[k];
      }
      if n == 6 {
        HexAt(js, p + 2);
      }
      BodyEnds(js, p + n, s[n..]);
    }
  }

  lemma {:induction false} HexAt(js: string, p: nat)
    requires p + 4 <= |js| && IsHex(js[p]) && IsHex(js[p + 1]) && IsHex(js[p + 2]) && IsHex(js[p + 3])
    ensures HexEnd(js, p, 4) == Ok(p + 4)
  {
    assert HexEnd(js, p + 4, 0) == Ok(p + 4);
    assert HexEnd(js, p + 3, 1) == Ok(p + 4);
    assert HexEnd(js, p + 2, 2) == Ok(p + 4);
    assert HexEnd(js, p + 1, 3) == Ok(p + 4);
  }

  predicate Delimited(js: string, p: nat) { p < |js| && IsDelimiter(js[p]) }

  /** A primitive ends at the delimiter, and without one it is taken to be incomplete. */
  lemma {:induction false} PlainEnds(js: string, p: nat, s: string)
    requires At(js, p, s) && forall i :: 0 <= i < |s| ==> ' ' <= s[i] < '\U{7f}' && !IsDelimiter(s[i])
    ensures Delimited(js, p + |s|) ==> PrimitiveEnd(js, p) == Ok(p + |s|)
    ensures p + |s| == |js| ==> PrimitiveEnd(js, p) == Err(Partial)
    decreases |s|
  {
    if s != "" {
      AtHead(js, p, s);
      PlainEnds(js, p + 1, s[1..]);
    }
  }

  // `run` is `Run` for this text and this many tokens.

  ghost predicate IsRun(js: string, room: nat, run: Progress -> Step) {
    forall s {:trigger Run(js, s, room)} :: Run(js, s, room) == run(s)
  }

  lemma {:induction false} Once(js: string, room: nat, run: Progress -> Step, s: Progress, s': Progress)
    requires IsRun(js, room, run) && !AtEnd(js, s.pos) && Next(js, s, room) == On(s')
    ensures run(s) == run(s')
  {
    assert Run(js, s, room) == Run(js, s', room);
  }

  lemma {:induction false} SpacesRun(js: string, room: nat, run: Progress -> Step, s: Progress, pad: string)
    requires IsRun(js, room, run) && Spaces(pad) && At(js, s.pos, pad)
    ensures run(s) == run(s.(pos := s.pos + |pad|))
    decreases |pad|
  {
    if pad != "" {
      AtHead(js, s.pos, pad);
      var s' := s.(pos := s.pos + 1);
      Once(js, room, run, s, s');
      SpacesRun(js, room, run, s', pad[1..]);
    }
  }

  // What the tokens of a document are like.

  /** Closed, and each below another one of them, or below token `o`. */
  ghost predicate Below(ts: seq<Token>, o: int, i: nat) {
    forall k :: 0 <= k < |ts| ==> ts[k].end != -1 && (ts[k].parent == o || i <= ts[k].parent < i + k)
  }

  lemma {:induction false} TreeBelow(v: Value, at: nat, parent: int, i: nat)
    ensures Below(Tree(v, at, parent, i), parent, i)
    decreases v, 0
  {
    if v.Node? {
      TreesBelow(v.parts, true, at + 1 + |v.pad|, i, i + 1);
    }
  }

  lemma {:induction false} TreesBelow(ps: Parts, first: bool, at: nat, o: nat, i: nat)
    ensures Below(Trees(ps, first, at, o, i), o, i)
    decreases ps, 1
  {
    if ps.Part? {
      OnePartBelow(ps, first, at, o, i);
      TreesBelow(ps.rest, false, RestAt(ps, first, at), o, i + |OnePart(ps, first, at, o, i)|);
    }
  }

  lemma {:induction false} OnePartBelow(ps: Parts, first: bool, at: nat, o: nat, i: nat)
    requires ps.Part?
    ensures Below(OnePart(ps, first, at, o, i), o, i)
    decreases ps, 0
  {
    var p := KeyAt(ps, first, at);
    if ps.key.NoKey? {
      TreeBelow(ps.v, p, o, i);
    } else {
      TreeBelow(ps.v, p + |SpellKey(ps.key)|, i, i + 1);
    }
  }

  // Reading a document.

  function Grown(ts: seq<Token>, o: nat, n: nat): seq<Token> {
    if o < |ts| then ts[o := ts[o].(size := ts[o].size + n)] else ts
  }

  /** Token `o` is open, and all that follow it are below it and closed. */
  ghost predicate Filling(ts: seq<Token>, kind: Kind, o: nat) {
    && o < |ts| && ts[o].kind == kind && (kind.Object? || kind.Array?) && ts[o].Open() && -1 <= ts[o].parent < o
    && forall k :: o < k < |ts| ==> ts[k].end != -1 && o <= ts[k].parent < k
  }

  /** The next part is to come: the last one may have left its key behind. */
  ghost predicate Ready(s: Progress, kind: Kind, first: bool, o: nat) {
    && Filling(s.ts, kind, o)
    && (s.sup == o || (!first && o < s.sup < |s.ts| && s.ts[s.sup].kind.Text? && s.ts[s.sup].parent == o))
  }

  lemma {:induction false} UnclosedIs(ts: seq<Token>, kind: Kind, o: nat, i: nat)
    requires Filling(ts, kind, o) && o <= i < |ts|
    ensures Unclosed(ts, i) == o
  {
    if i > o {
      UnclosedIs(ts, kind, o, ts[i].parent);
    }
  }

  ghost function Behind(s: Progress, n: nat, ts: seq<Token>): Progress {
    Progress(s.pos + n, Bump(s.ts, s.sup) + ts, s.sup)
  }

  ghost function AfterValue(s: Progress, v: Value): Progress {
    Behind(s, |Spelling(v)|, Tree(v, s.pos, s.sup, |s.ts|))
  }

  ghost function AfterPart(s: Progress, ps: Parts, first: bool, o: nat): Progress
    requires ps.Part?
  {
    Progress(RestAt(ps, first, s.pos), Bump(s.ts, o) + OnePart(ps, first, s.pos, o, |s.ts|),
             if ps.key.NoKey? then o else |s.ts|)
  }

  /** Token `o` has got `n` more children, whose tokens are `ts`, and ends after `m` more characters. */
  ghost function Completed(s: Progress, o: nat, n: nat, ts: seq<Token>, m: nat): Progress
    requires o < |s.ts|
  {
    Progress(s.pos + m, Closed(Grown(s.ts, o, n) + ts, o, s.pos + m), s.ts[o].parent)
  }

  ghost function AfterParts(s: Progress, kind: Kind, ps: Parts, first: bool, o: nat): Progress
    requires o < |s.ts|
  {
    Completed(s, o, Length(ps), Trees(ps, first, s.pos, o, |s.ts|), |SpellParts(kind, ps, first)|)
  }

  ghost predicate Fits(js: string, s: Progress, room: nat, v: Value) {
    && Valid(v) && At(js, s.pos, Spelling(v)) && -1 <= s.sup < |s.ts|
    && |s.ts| + |Tree(v, s.pos, s.sup, |s.ts|)| <= room
    && (v.Plain? ==> !Refuses(s.ts, s.sup) && Delimited(js, s.pos + |v.body|))
  }

  ghost predicate PartsFit(js: string, s: Progress, room: nat, kind: Kind, ps: Parts, first: bool, o: nat) {
    && ValidParts(kind, ps) && At(js, s.pos, SpellParts(kind, ps, first)) && Ready(s, kind, first, o)
    && |s.ts| + |Trees(ps, first, s.pos, o, |s.ts|)| <= room
  }

  /** A value adds its tokens below the token that it belongs to. */
  lemma {:induction false} ValueRun(js: string, room: nat, run: Progress -> Step, s: Progress, v: Value)
    requires IsRun(js, room, run) && Fits(js, s, room, v)
    ensures run(s) == run(AfterValue(s, v))
    decreases v
  {
    match v
    case Quoted(body) =>
      QuotedRun(js, room, run, s, body);
    case Plain(body) =>
      PlainRun(js, room, run, s, body);
    case Node(kind, pad, parts) =>
      OpenRun(js, room, run, s, v);
      OpenFits(js, s, room, v);
      PartsRun(js, room, run, AfterOpening(s, v), kind, parts, true, |s.ts|);
      NodeTokens(s, v);
  }

  lemma {:induction false} PlainRun(js: string, room: nat, run: Progress -> Step, s: Progress, body: string)
    requires IsRun(js, room, run) && IsPlain(body) && At(js, s.pos, body) && |s.ts| < room
    requires !Refuses(s.ts, s.sup) && Delimited(js, s.pos + |body|)
    ensures var n := s.pos + |body|; run(s) == run(Progress(n, Added(s.ts, Primitive, s.pos, n, s.sup), s.sup))
  {
    var n := s.pos + |body|;
    PlainEnds(js, s.pos, body);
    AtHead(js, s.pos, body);
    Once(js, room, run, s, Progress(n, Added(s.ts, Primitive, s.pos, n, s.sup), s.sup));
  }

  lemma {:induction false} QuotedRun(js: string, room: nat, run: Progress -> Step, s: Progress, body: string)
    requires IsRun(js, room, run) && IsBody(body) && At(js, s.pos, "\"" + body + "\"") && |s.ts| < room
    ensures run(s) == run(AfterQuoted(s, body))
  {
    QuotedText(js, s.pos, body);
    Once(js, room, run, s, AfterQuoted(s, body));
  }

  ghost function AfterQuoted(s: Progress, body: string): Progress {
    Progress(s.pos + |body| + 2, Added(s.ts, Text, s.pos + 1, s.pos + 1 + |body|, s.sup), s.sup)
  }

  lemma {:induction false} QuotedText(js: string, p: nat, body: string)
    requires IsBody(body) && At(js, p, "\"" + body + "\"")
    ensures p < |js| && js[p] == '"' && StringEnd(js, p + 1) == Ok(p + 1 + |body|)
  {
    assert "\"" + body + "\"" == "\"" + (body + "\"");
    AtSplit(js, p, "\"", body + "\"");
    AtHead(js, p, "\"");
    BodyEnds(js, p + 1, body);
  }

  lemma {:induction false} OpenRun(js: string, room: nat, run: Progress -> Step, s: Progress, v: Value)
    requires IsRun(js, room, run) && v.Node? && Fits(js, s, room, v)
    ensures run(s) == run(AfterOpening(s, v))
  {
    NodeTexts(js, s.pos, v);
    var s' := Progress(s.pos + 1, Added(s.ts, v.kind, s.pos, -1, s.sup), |s.ts|);
    Once(js, room, run, s, s');
    SpacesRun(js, room, run, s', v.pad);
  }

  ghost function AfterOpening(s: Progress, v: Value): Progress
    requires v.Node?
  {
    Progress(s.pos + 1 + |v.pad|, Added(s.ts, v.kind, s.pos, -1, s.sup), |s.ts|)
  }

  lemma {:induction false} OpenFits(js: string, s: Progress, room: nat, v: Value)
    requires v.Node? && Fits(js, s, room, v)
    ensures PartsFit(js, AfterOpening(s, v), room, v.kind, v.parts, true, |s.ts|)
  {
    NodeTexts(js, s.pos, v);
  }

  lemma {:induction false} NodeTexts(js: string, p: nat, v: Value)
    requires v.Node? && At(js, p, Spelling(v))
    ensures p < |js| && js[p] == Opening(v.kind) && At(js, p + 1, v.pad)
    ensures At(js, p + 1 + |v.pad|, SpellParts(v.kind, v.parts, true))
  {
    NodeSplit(js, p, Opening(v.kind), v.pad, SpellParts(v.kind, v.parts, true));
  }

  lemma {:induction false} NodeSplit(js: string, p: nat, c: char, pad: string, parts: string)
    requires At(js, p, [c] + pad + parts)
    ensures p < |js| && js[p] == c && At(js, p + 1, pad) && At(js, p + 1 + |pad|, parts)
  {
    AtSplit(js, p, [c] + pad, parts);
    AtSplit(js, p, [c], pad);
    AtHead(js, p, [c]);
  }

  lemma {:induction false} NodeTokens(s: Progress, v: Value)
    requires v.Node? && -1 <= s.sup < |s.ts|
    ensures AfterParts(AfterOpening(s, v), v.kind, v.parts, true, |s.ts|) == AfterValue(s, v)
  {
    var rs := Trees(v.parts, true, s.pos + 1 + |v.pad|, |s.ts|, |s.ts| + 1);
    NodeEnd(v);
    NodeTree(v, s.pos, s.sup, |s.ts|);
    NodeCompleted(s, v, Length(v.parts), rs, |SpellParts(v.kind, v.parts, true)|, |Spelling(v)|);
  }

  lemma {:induction false} NodeTree(v: Value, at: nat, parent: int, i: nat)
    requires v.Node?
    ensures Tree(v, at, parent, i) == [Token(v.kind, at, at + |Spelling(v)|, Length(v.parts), parent)]
                                      + Trees(v.parts, true, at + 1 + |v.pad|, i, i + 1)
  {
  }

  lemma {:induction false} NodeCompleted(s: Progress, v: Value, n: nat, rs: seq<Token>, m: nat, l: nat)
    requires v.Node? && -1 <= s.sup < |s.ts| && l == 1 + |v.pad| + m
    ensures Completed(AfterOpening(s, v), |s.ts|, n, rs, m)
         == Behind(s, l, [Token(v.kind, s.pos, s.pos + l, n, s.sup)] + rs)
  {
  }

  lemma {:induction false} NodeEnd(v: Value)
    requires v.Node?
    ensures |Spelling(v)| == 1 + |v.pad| + |SpellParts(v.kind, v.parts, true)|
  {
  }

  /** The parts up to the closing bracket. */
  lemma {:induction false} PartsRun(js: string, room: nat, run: Progress -> Step, s: Progress, kind: Kind, ps: Parts,
                                    first: bool, o: nat)
    requires IsRun(js, room, run) && PartsFit(js, s, room, kind, ps, first, o)
    ensures run(s) == run(AfterParts(s, kind, ps, first, o))
    decreases ps, 1
  {
    if ps.End? {
      EndRun(js, room, run, s, kind, o);
      assert AfterParts(s, kind, ps, first, o) == AfterEnd(s, o);
    } else {
      PartRun(js, room, run, s, kind, ps, first, o);
      RestFits(js, s, room, kind, ps, first, o);
      PartsRun(js, room, run, AfterPart(s, ps, first, o), kind, ps.rest, false, o);
      PartsTokens(s, kind, ps, first, o);
    }
  }

  ghost function AfterEnd(s: Progress, o: nat): Progress
    requires o < |s.ts|
  {
    Progress(s.pos + 1, Closed(s.ts, o, s.pos + 1), s.ts[o].parent)
  }

  lemma {:induction false} EndRun(js: string, room: nat, run: Progress -> Step, s: Progress, kind: Kind, o: nat)
    requires IsRun(js, room, run) && Filling(s.ts, kind, o) && At(js, s.pos, [Ending(kind)])
    ensures run(s) == run(AfterEnd(s, o))
  {
    AtHead(js, s.pos, [Ending(kind)]);
    UnclosedIs(s.ts, kind, o, |s.ts| - 1);
    Once(js, room, run, s, AfterEnd(s, o));
  }

  /** One part of an array or object, with the comma before it. */
  lemma {:induction false} PartRun(js: string, room: nat, run: Progress -> Step, s: Progress, kind: Kind, ps: Parts,
                                   first: bool, o: nat)
    requires IsRun(js, room, run) && ps.Part? && PartsFit(js, s, room, kind, ps, first, o)
    ensures run(s) == run(AfterPart(s, ps, first, o))
    decreases ps, 0
  {
    ToValue(js, room, run, s, kind, ps, first, o);
    ValueFits(js, s, room, kind, ps, first, o);
    var s' := ValueFrom(s, ps, first, o);
    ValueRun(js, room, run, s', ps.v);
    PartTexts(js, s.pos, kind, ps, first);
    SpacesRun(js, room, run, AfterValue(s', ps.v), ps.trail);
    PartTokens(s, ps, first, o);
  }

  lemma {:induction false} ToValue(js: string, room: nat, run: Progress -> Step, s: Progress, kind: Kind, ps: Parts,
                                   first: bool, o: nat)
    requires IsRun(js, room, run) && ps.Part? && PartsFit(js, s, room, kind, ps, first, o)
    ensures run(s) == run(ValueFrom(s, ps, first, o))
  {
    PartTexts(js, s.pos, kind, ps, first);
    CommaRun(js, room, run, s, kind, first, o);
    SpacesRun(js, room, run, Progress(s.pos + |Comma(first)|, s.ts, o), ps.lead);
    ValueFits(js, s, room, kind, ps, first, o);
    KeyRun(js, room, run, Progress(KeyAt(ps, first, s.pos), s.ts, o), ps.key);
  }

  ghost function AfterKey(s: Progress, key: Key): Progress {
    if key.NoKey? then s
    else Progress(s.pos + |SpellKey(key)|, Added(s.ts, Text, s.pos + 1, s.pos + 1 + |key.name|, s.sup), |s.ts|)
  }

  ghost function ValueFrom(s: Progress, ps: Parts, first: bool, o: nat): Progress
    requires ps.Part?
  {
    AfterKey(Progress(KeyAt(ps, first, s.pos), s.ts, o), ps.key)
  }

  lemma {:induction false} PartTexts(js: string, p: nat, kind: Kind, ps: Parts, first: bool)
    requires ps.Part? && At(js, p, SpellParts(kind, ps, first))
    ensures At(js, p, Comma(first)) && At(js, p + |Comma(first)|, ps.lead)
    ensures At(js, KeyAt(ps, first, p), SpellKey(ps.key))
    ensures At(js, KeyAt(ps, first, p) + |SpellKey(ps.key)|, Spelling(ps.v))
    ensures At(js, KeyAt(ps, first, p) + |SpellKey(ps.key)| + |Spelling(ps.v)|, ps.trail)
    ensures At(js, RestAt(ps, first, p), SpellParts(kind, ps.rest, false))
  {
    AtSplits(js, p, Comma(first), ps.lead, SpellKey(ps.key), Spelling(ps.v), ps.trail,
             SpellParts(kind, ps.rest, false));
  }

  lemma {:induction false} AtSplits(js: string, p: nat, a: string, b: string, c: string, d: string, e: string,
                                    f: string)
    requires At(js, p, a + b + c + d + e + f)
    ensures At(js, p, a) && At(js, p + |a|, b) && At(js, p + |a| + |b|, c) && At(js, p + |a| + |b| + |c|, d)
    ensures At(js, p + |a| + |b| + |c| + |d|, e) && At(js, p + |a| + |b| + |c| + |d| + |e|, f)
  {
    AtSplit(js, p, a + b + c + d + e, f);
    AtSplit(js, p, a + b + c + d, e);
    AtSplit(js, p, a + b + c, d);
    AtSplit(js, p, a + b, c);
    AtSplit(js, p, a, b);
  }

  lemma {:induction false} CommaRun(js: string, room: nat, run: Progress -> Step, s: Progress, kind: Kind, first: bool,
                                    o: nat)
    requires IsRun(js, room, run) && Ready(s, kind, first, o) && At(js, s.pos, Comma(first))
    ensures run(s) == run(Progress(s.pos + |Comma(first)|, s.ts, o))
  {
    if !first {
      AtHead(js, s.pos, ",");
      Once(js, room, run, s, Progress(s.pos + 1, s.ts, o));
    }
  }

  lemma {:induction false} KeyRun(js: string, room: nat, run: Progress -> Step, s: Progress, key: Key)
    requires IsRun(js, room, run) && ValidKey(key) && At(js, s.pos, SpellKey(key)) && (key.Key? ==> |s.ts| < room)
    ensures run(s) == run(AfterKey(s, key))
  {
    if key.Key? {
      KeyTexts(js, s.pos, key);
      QuotedRun(js, room, run, s, key.name);
      ColonRun(js, room, run, AfterQuoted(s, key.name), key);
    }
  }

  lemma {:induction false} ColonRun(js: string, room: nat, run: Progress -> Step, s: Progress, key: Key)
    requires IsRun(js, room, run) && key.Key? && Spaces(key.before) && Spaces(key.after)
    requires At(js, s.pos, key.before) && At(js, s.pos + |key.before|, ":")
    requires At(js, s.pos + |key.before| + 1, key.after)
    ensures run(s) == run(Progress(s.pos + |key.before| + 1 + |key.after|, s.ts, |s.ts| - 1))
  {
    SpacesRun(js, room, run, s, key.before);
    AtHead(js, s.pos + |key.before|, ":");
    var s' := Progress(s.pos + |key.before| + 1, s.ts, |s.ts| - 1);
    Once(js, room, run, s.(pos := s.pos + |key.before|), s');
    SpacesRun(js, room, run, s', key.after);
  }

  lemma {:induction false} KeyTexts(js: string, p: nat, key: Key)
    requires key.Key? && At(js, p, SpellKey(key))
    ensures At(js, p, "\"" + key.name + "\"") && At(js, p + |key.name| + 2, key.before)
    ensures At(js, p + |key.name| + 2 + |key.before|, ":")
    ensures At(js, p + |key.name| + 2 + |key.before| + 1, key.after)
  {
    var quoted := "\"" + key.name + "\"";
    AtSplit(js, p, quoted + key.before + ":", key.after);
    AtSplit(js, p, quoted + key.before, ":");
    AtSplit(js, p, quoted, key.before);
  }

  /** What follows a value ends a primitive. */
  lemma {:induction false} ThenDelimiter(js: string, p: nat, kind: Kind, ps: Parts)
    requires ps.Part? && Spaces(ps.trail) && (kind.Object? || kind.Array?)
    requires At(js, p, ps.trail) && At(js, p + |ps.trail|, SpellParts(kind, ps.rest, false))
    ensures Delimited(js, p)
  {
    if ps.trail != "" {
      AtHead(js, p, ps.trail);
    } else {
      var t := SpellParts(kind, ps.rest, false);
      assert t[0] == if ps.rest.End? then Ending(kind) else ',';
      AtHead(js, p, t);
    }
  }

  lemma {:induction false} ValueFits(js: string, s: Progress, room: nat, kind: Kind, ps: Parts, first: bool, o: nat)
    requires ps.Part? && PartsFit(js, s, room, kind, ps, first, o)
    ensures Fits(js, ValueFrom(s, ps, first, o), room, ps.v) && (ps.key.Key? ==> |s.ts| < room)
  {
    var at := KeyAt(ps, first, s.pos) + |SpellKey(ps.key)|;
    var sup, i := if ps.key.Key? then |s.ts| else o, if ps.key.Key? then |s.ts| + 1 else |s.ts|;
    ValueParts(js, s, room, kind, ps, first, o, at, sup, i);
    FitsIf(js, ValueFrom(s, ps, first, o), room, ps.v, at, sup, i);
  }

  lemma {:induction false} ValueParts(js: string, s: Progress, room: nat, kind: Kind, ps: Parts, first: bool, o: nat,
                                      at: nat, sup: nat, i: nat)
    requires ps.Part? && PartsFit(js, s, room, kind, ps, first, o) && at == KeyAt(ps, first, s.pos) + |SpellKey(ps.key)|
    requires if ps.key.Key? then sup == |s.ts| && i == |s.ts| + 1 else sup == o && i == |s.ts|
    ensures var s' := ValueFrom(s, ps, first, o);
      s'.pos == at && s'.sup == sup && |s'.ts| == i && TakesValue(s'.ts, sup)
    ensures i + |Tree(ps.v, at, sup, i)| <= room
    ensures At(js, at, Spelling(ps.v)) && Delimited(js, at + |Spelling(ps.v)|) && Valid(ps.v)
  {
    ValueDelimited(js, s, kind, ps, first, at);
    ValueRoom(s.ts, ps, first, s.pos, o, room, at, sup, i);
    FromIs(s, kind, ps, first, o, at);
  }

  lemma {:induction false} ValueRoom(ts: seq<Token>, ps: Parts, first: bool, p: nat, o: nat, room: nat, at: nat,
                                     sup: nat, i: nat)
    requires ps.Part? && |ts| + |Trees(ps, first, p, o, |ts|)| <= room && at == KeyAt(ps, first, p) + |SpellKey(ps.key)|
    requires if ps.key.Key? then sup == |ts| && i == |ts| + 1 else sup == o && i == |ts|
    ensures i + |Tree(ps.v, at, sup, i)| <= room
  {
    TreesLonger(ps, first, p, o, |ts|);
    OneLonger(ps, first, p, o, |ts|);
  }

  lemma {:induction false} ValueDelimited(js: string, s: Progress, kind: Kind, ps: Parts, first: bool, at: nat)
    requires ps.Part? && ValidParts(kind, ps) && At(js, s.pos, SpellParts(kind, ps, first))
    requires (kind.Object? || kind.Array?) && at == KeyAt(ps, first, s.pos) + |SpellKey(ps.key)|
    ensures At(js, at, Spelling(ps.v)) && Delimited(js, at + |Spelling(ps.v)|) && Valid(ps.v)
  {
    PartTexts(js, s.pos, kind, ps, first);
    assert RestAt(ps, first, s.pos) == at + |Spelling(ps.v)| + |ps.trail|;
    ThenDelimiter(js, at + |Spelling(ps.v)|, kind, ps);
  }

  lemma {:induction false} FromIs(s: Progress, kind: Kind, ps: Parts, first: bool, o: nat, at: nat)
    requires ps.Part? && ValidParts(kind, ps) && Filling(s.ts, kind, o)
    requires at == KeyAt(ps, first, s.pos) + |SpellKey(ps.key)|
    ensures var s', i := ValueFrom(s, ps, first, o), |s.ts|;
      && s'.pos == at && s'.sup == (if ps.key.Key? then i else o) && |s'.ts| == (if ps.key.Key? then i + 1 else i)
      && TakesValue(s'.ts, s'.sup)
  {
  }

  ghost predicate TakesValue(ts: seq<Token>, sup: int) {
    0 <= sup < |ts| && (ts[sup].kind.Array? || (ts[sup].kind.Text? && ts[sup].size == 0))
  }

  lemma {:induction false} FitsIf(js: string, s: Progress, room: nat, v: Value, at: nat, sup: nat, i: nat)
    requires s.pos == at && s.sup == sup < i && |s.ts| == i && i + |Tree(v, at, sup, i)| <= room
    requires Valid(v) && At(js, at, Spelling(v))
    requires TakesValue(s.ts, sup)
    requires Delimited(js, at + |Spelling(v)|)
    ensures Fits(js, s, room, v)
  {
  }

  lemma {:induction false} TreesLonger(ps: Parts, first: bool, at: nat, o: nat, i: nat)
    requires ps.Part?
    ensures |Trees(ps, first, at, o, i)| >= |OnePart(ps, first, at, o, i)|
  {
    assert Trees(ps, first, at, o, i) == OnePart(ps, first, at, o, i)
        + Trees(ps.rest, false, RestAt(ps, first, at), o, i + |OnePart(ps, first, at, o, i)|);
  }

  lemma {:induction false} OneLonger(ps: Parts, first: bool, at: nat, o: nat, i: nat)
    requires ps.Part?
    ensures var q := KeyAt(ps, first, at) + |SpellKey(ps.key)|;
      if ps.key.NoKey? then OnePart(ps, first, at, o, i) == Tree(ps.v, q, o, i)
      else |OnePart(ps, first, at, o, i)| == 1 + |Tree(ps.v, q, i, i + 1)|
  {
  }

  lemma {:induction false} PartTokens(s: Progress, ps: Parts, first: bool, o: nat)
    requires ps.Part? && o < |s.ts|
    ensures var s4 := AfterValue(ValueFrom(s, ps, first, o), ps.v);
      s4.(pos := s4.pos + |ps.trail|) == AfterPart(s, ps, first, o)
  {
  }

  lemma {:induction false} RestFits(js: string, s: Progress, room: nat, kind: Kind, ps: Parts, first: bool, o: nat)
    requires ps.Part? && PartsFit(js, s, room, kind, ps, first, o)
    ensures PartsFit(js, AfterPart(s, ps, first, o), room, kind, ps.rest, false, o)
  {
    PartTexts(js, s.pos, kind, ps, first);
    OnePartBelow(ps, first, s.pos, o, |s.ts|);
  }

  lemma {:induction false} PartsTokens(s: Progress, kind: Kind, ps: Parts, first: bool, o: nat)
    requires ps.Part? && o < |s.ts|
    ensures AfterParts(AfterPart(s, ps, first, o), kind, ps.rest, false, o) == AfterParts(s, kind, ps, first, o)
  {
    var es, n := OnePart(ps, first, s.pos, o, |s.ts|), RestAt(ps, first, s.pos);
    PartsEnd(kind, ps, first, s.pos);
    PartsMore(s.ts, ps, first, s.pos, o, es, n, n + |SpellParts(kind, ps.rest, false)|);
  }

  lemma {:induction false} PartsMore(ts: seq<Token>, ps: Parts, first: bool, at: nat, o: nat, es: seq<Token>, n: nat,
                                     end: nat)
    requires ps.Part? && o < |ts| && es == OnePart(ps, first, at, o, |ts|) && n == RestAt(ps, first, at)
    ensures Closed(Grown(Bump(ts, o) + es, o, Length(ps.rest)) + Trees(ps.rest, false, n, o, |ts| + |es|), o, end)
         == Closed(Grown(ts, o, Length(ps)) + Trees(ps, first, at, o, |ts|), o, end)
  {
    var rs := Trees(ps.rest, false, n, o, |ts| + |es|);
    assert Trees(ps, first, at, o, |ts|) == es + rs;
    GrownMore(ts, o, es, rs, Length(ps.rest), end);
  }

  lemma {:induction false} PartsEnd(kind: Kind, ps: Parts, first: bool, at: nat)
    requires ps.Part?
    ensures at + |SpellParts(kind, ps, first)| == RestAt(ps, first, at) + |SpellParts(kind, ps.rest, false)|
  {
  }

  lemma {:induction false} GrownMore(ts: seq<Token>, o: nat, es: seq<Token>, rs: seq<Token>, n: nat, end: nat)
    requires o < |ts|
    ensures Closed(Grown(Bump(ts, o) + es, o, n) + rs, o, end) == Closed(Grown(ts, o, n + 1) + (es + rs), o, end)
  {
  }

  // A whole text.

  /** The tokens of the document whose text begins after `lead`. */
  function Expected(v: Value, lead: string): seq<Token> { Tree(v, |lead|, -1, 0) }

  lemma {:induction false} ExpectedClosed(v: Value, lead: string)
    ensures AllClosed(Expected(v, lead))
  {
    TreeBelow(v, |lead|, -1, 0);
  }

  /** With room for its tokens the text of a document gives its tokens, exactly if it is not a primitive with
  nothing behind it; such a one is taken to be incomplete. */
  lemma {:induction false} RoundTrip(js: string, v: Value, lead: string, trail: string, room: nat)
    requires Valid(v) && Spaces(lead) && Spaces(trail) && js == lead + Spelling(v) + trail
    requires |Expected(v, lead)| <= room
    ensures Tokens(js, room) == if v.Plain? && trail == "" then Stop(Partial)
                                else On(Progress(|js|, Expected(v, lead), -1))
  {
    var s := Progress(|lead|, [], -1);
    WholeTexts(js, v, lead, trail);
    LeadRun(js, room, lead);
    if v.Plain? && trail == "" {
      AtHead(js, |lead|, v.body);
      PlainEnds(js, |lead|, v.body);
      assert Run(js, s, room) == Stop(Partial);
    } else {
      WholeRun(js, v, lead, trail, room);
      ExpectedClosed(v, lead);
    }
  }

  lemma {:induction false} WholeTexts(js: string, v: Value, lead: string, trail: string)
    requires js == lead + Spelling(v) + trail
    ensures At(js, 0, lead) && At(js, |lead|, Spelling(v)) && At(js, |lead| + |Spelling(v)|, trail)
  {
    assert At(js, 0, js);
    AtSplit(js, 0, lead + Spelling(v), trail);
    AtSplit(js, 0, lead, Spelling(v));
  }

  lemma {:induction false} LeadRun(js: string, room: nat, lead: string)
    requires Spaces(lead) && At(js, 0, lead)
    ensures Run(js, Progress(0, [], -1), room) == Run(js, Progress(|lead|, [], -1), room)
  {
    SpacesRun(js, room, s => Run(js, s, room), Progress(0, [], -1), lead);
  }

  lemma {:induction false} WholeFits(js: string, v: Value, lead: string, trail: string, room: nat)
    requires Valid(v) && Spaces(trail) && js == lead + Spelling(v) + trail && |Expected(v, lead)| <= room
    requires v.Plain? ==> trail != ""
    ensures Fits(js, Progress(|lead|, [], -1), room, v)
  {
    WholeTexts(js, v, lead, trail);
    if trail != "" {
      AtHead(js, |lead| + |Spelling(v)|, trail);
    }
  }

  lemma {:induction false} WholeRun(js: string, v: Value, lead: string, trail: string, room: nat)
    requires Valid(v) && Spaces(trail) && js == lead + Spelling(v) + trail && |Expected(v, lead)| <= room
    requires v.Plain? ==> trail != ""
    ensures Run(js, Progress(|lead|, [], -1), room) == On(Progress(|js|, Expected(v, lead), -1))
  {
    var run, s := s => Run(js, s, room), Progress(|lead|, [], -1);
    WholeTexts(js, v, lead, trail);
    WholeFits(js, v, lead, trail, room);
    ValueRun(js, room, run, s, v);
    SpacesRun(js, room, run, AfterValue(s, v), trail);
  }

  /** So counting the tokens of a document and reading as many gives its tokens. */
  lemma {:induction false} DocumentRead(js: string, v: Value, lead: string, trail: string)
    requires Valid(v) && Spaces(lead) && Spaces(trail) && js == lead + Spelling(v) + trail
    ensures BothPasses(js) == if v.Plain? && trail == "" then None else Some(Expected(v, lead))
  {
    var c, n := CountFrom(js, 0), |Expected(v, lead)|;
    RoundTrip(js, v, lead, trail, n);
    if !(v.Plain? && trail == "") {
      RunCounts(js, Progress(0, [], -1), n);
    } else if c.Ok? && c.value > 0 {
      RoundTrip(js, v, lead, trail, c.value);
    }
  }
}
