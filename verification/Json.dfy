/** What the tokenizer of `jsmn.c` recognises, as built here: strict, with parent links. */
module Json {
  import opened Wrappers

  datatype Error = NoMemory | Invalid | Partial

  datatype Result = Ok(value: nat) | Err(error: Error)

  /** The text ends at its length or at a NUL character. */
  predicate AtEnd(js: string, p: nat) { p >= |js| || js[p] == '\0' }

  predicate IsHex(c: char) { '0' <= c <= '9' || 'A' <= c <= 'F' || 'a' <= c <= 'f' }

  predicate IsEscape(c: char) {
    c == '"' || c == '/' || c == '\\' || c == 'b' || c == 'f' || c == 'r' || c == 'n' || c == 't'
  }

  predicate IsSpace(c: char) { c == '\t' || c == '\r' || c == '\n' || c == ' ' }

  predicate IsOpening(c: char) { c == '{' || c == '[' }

  predicate IsClosing(c: char) { c == '}' || c == ']' }

  predicate IsDelimiter(c: char) { IsSpace(c) || c == ',' || IsClosing(c) }

  predicate IsPrimitiveStart(c: char) { c == '-' || '0' <= c <= '9' || c == 't' || c == 'f' || c == 'n' }

  /** Up to `k` hexadecimal digits from `p` on: where they end. */
  function HexEnd(js: string, p: nat, k: nat): (r: Result)
    ensures r.Ok? ==> p <= r.value && (p <= |js| ==> r.value <= |js|)
    decreases k
  {
    if k == 0 || AtEnd(js, p) then Ok(p)
    else if IsHex(js[p]) then HexEnd(js, p + 1, k - 1)
    else Err(Invalid)
  }

  /** The closing quote of a string whose characters from `p` on are still to be read. */
  function StringEnd(js: string, p: nat): (r: Result)
    ensures r.Ok? ==> p <= r.value < |js| && js[r.value] == '"'
    ensures r != Err(NoMemory)
    decreases |js| - p
  {
    if AtEnd(js, p) then Err(Partial)
    else if js[p] == '"' then Ok(p)
    else if js[p] == '\\' && p + 1 < |js| then
      if IsEscape(js[p + 1]) then StringEnd(js, p + 2)
      else if js[p + 1] == 'u' then
        var h := HexEnd(js, p + 2, 4);
        if h.Err? then Err(Invalid) else StringEnd(js, h.value)
      else Err(Invalid)
    else StringEnd(js, p + 1)
  }

  /** The delimiter after a primitive. */
  function PrimitiveEnd(js: string, p: nat): (r: Result)
    ensures r.Ok? ==> p <= r.value < |js| && IsDelimiter(js[r.value])
    ensures r != Err(NoMemory)
    decreases |js| - p
  {
    if AtEnd(js, p) then Err(Partial)
    else if IsDelimiter(js[p]) then Ok(p)
    else if js[p] < ' ' || js[p] >= '\U{7f}' then Err(Invalid)
    else PrimitiveEnd(js, p + 1)
  }

  function Plus(r: Result, n: nat): Result { if r.Ok? then Ok(r.value + n) else r }

  predicate IsSkipped(c: char) { IsSpace(c) || c == ':' || c == ',' || IsClosing(c) }

  /** The number of tokens from `p` on, if the characters are acceptable one by one. */
  function CountFrom(js: string, p: nat): (r: Result)
    ensures r != Err(NoMemory)
    decreases |js| - p
  {
    if AtEnd(js, p) then Ok(0)
    else if IsOpening(js[p]) then Plus(CountFrom(js, p + 1), 1)
    else if IsSkipped(js[p]) then CountFrom(js, p + 1)
    else if js[p] == '"' then
      var q := StringEnd(js, p + 1);
      if q.Err? then q else Plus(CountFrom(js, q.value + 1), 1)
    else if IsPrimitiveStart(js[p]) then
      assert !IsDelimiter(js[p]);
      var q := PrimitiveEnd(js, p);
      if q.Err? then q else Plus(CountFrom(js, q.value), 1)
    else Err(Invalid)
  }

  // Tokens.

  datatype Kind = Object | Array | Text | Primitive

  datatype Token = Token(kind: Kind, start: int, end: int, size: int, parent: int) {
    predicate Open() { start != -1 && end == -1 }
    predicate Container() { kind.Object? || kind.Array? }
  }

  /** One more child for token `i`, if there is one. */
  function Bump(ts: seq<Token>, i: int): seq<Token> {
    if 0 <= i < |ts| then ts[i := ts[i].(size := ts[i].size + 1)] else ts
  }

  function Added(ts: seq<Token>, kind: Kind, start: int, end: int, sup: int): seq<Token> {
    Bump(ts, sup) + [Token(kind, start, end, 0, sup)]
  }

  function Closed(ts: seq<Token>, i: nat, end: int): seq<Token>
    requires i < |ts|
  {
    ts[i := ts[i].(end := end)]
  }

  // What one character, or the string or primitive that it begins, does to the tokens.

  /** The position, the tokens so far and the token that the next one belongs to. */
  datatype Progress = Progress(pos: nat, ts: seq<Token>, sup: int)

  datatype Step = On(next: Progress) | Stop(error: Error)

  predicate IsLeaf(ts: seq<Token>, i: int) { 0 <= i < |ts| && !ts[i].Container() }

  /** A primitive must not be a key, nor a second value. */
  predicate Refuses(ts: seq<Token>, sup: int) {
    0 <= sup < |ts| && (ts[sup].kind.Object? || (ts[sup].kind.Text? && ts[sup].size != 0))
  }

  function BracketKind(c: char): Kind { if c == '{' || c == '}' then Object else Array }

  /** The innermost open token on the way from `i` over the parents, or else the outermost one. */
  function Unclosed(ts: seq<Token>, i: nat): (k: nat)
    requires i < |ts|
    ensures k <= i
  {
    if ts[i].Open() || !(0 <= ts[i].parent < i) then i else Unclosed(ts, ts[i].parent)
  }

  function Closing(s: Progress, kind: Kind): Step {
    if s.ts == [] then Stop(Invalid)
    else
      var i := Unclosed(s.ts, |s.ts| - 1);
      if s.ts[i].kind != kind then Stop(Invalid)
      else if s.ts[i].Open() then On(Progress(s.pos + 1, Closed(s.ts, i, s.pos + 1), s.ts[i].parent))
      else if s.sup == -1 then Stop(Invalid)
      else On(Progress(s.pos + 1, s.ts, s.sup))
  }

  function AddNew(s: Progress, room: nat, kind: Kind, start: int, end: int, pos: nat): Step {
    if |s.ts| >= room then Stop(NoMemory)
    else On(Progress(pos, Added(s.ts, kind, start, end, s.sup), if end == -1 then |s.ts| else s.sup))
  }

  function Next(js: string, s: Progress, room: nat): (r: Step)
    requires !AtEnd(js, s.pos)
    ensures r.On? ==> s.pos < r.next.pos <= |js|
  {
    var c := js[s.pos];
    if IsOpening(c) then AddNew(s, room, BracketKind(c), s.pos, -1, s.pos + 1)
    else if IsClosing(c) then Closing(s, BracketKind(c))
    else if c == '"' then
      var q := StringEnd(js, s.pos + 1);
      if q.Err? then Stop(q.error) else AddNew(s, room, Text, s.pos + 1, q.value, q.value + 1)
    else if IsPrimitiveStart(c) then
      assert !IsDelimiter(c);
      var q := PrimitiveEnd(js, s.pos);
      if Refuses(s.ts, s.sup) then Stop(Invalid)
      else if q.Err? then Stop(q.error)
      else AddNew(s, room, Primitive, s.pos, q.value, q.value)
    else if c == ':' then On(Progress(s.pos + 1, s.ts, |s.ts| - 1))
    else if c == ',' && IsLeaf(s.ts, s.sup) then On(Progress(s.pos + 1, s.ts, s.ts[s.sup].parent))
    else if IsSkipped(c) then On(Progress(s.pos + 1, s.ts, s.sup))
    else Stop(Invalid)
  }

  function Run(js: string, s: Progress, room: nat): Step
    decreases |js| - s.pos
  {
    if AtEnd(js, s.pos) then On(s)
    else
      var n := Next(js, s, room);
      if n.Stop? then n else Run(js, n.next, room)
  }

  ghost predicate AllClosed(ts: seq<Token>) { forall i :: 0 <= i < |ts| ==> !ts[i].Open() }

  /** All of the text; nothing may be left open. */
  ghost function Tokens(js: string, room: nat): Step {
    var r := Run(js, Progress(0, [], -1), room);
    if r.On? && !AllClosed(r.next.ts) then Stop(Partial) else r
  }

  lemma {:induction false} NextText(js: string, s: Progress, room: nat)
    requires !AtEnd(js, s.pos) && js[s.pos] == '"'
    ensures var q := StringEnd(js, s.pos + 1);
      Next(js, s, room) == if q.Err? then Stop(q.error) else AddNew(s, room, Text, s.pos + 1, q.value, q.value + 1)
  {
  }

  lemma {:induction false} NextCounts(js: string, s: Progress, room: nat)
    requires !AtEnd(js, s.pos) && Next(js, s, room).On?
    ensures var n := Next(js, s, room).next;
      |n.ts| >= |s.ts| && CountFrom(js, s.pos) == Plus(CountFrom(js, n.pos), |n.ts| - |s.ts|)
  {
  }

  /** Tokens run out only if there are more than fit. */
  lemma {:induction false} RunRoom(js: string, s: Progress, room: nat)
    ensures Run(js, s, room) == Stop(NoMemory) && CountFrom(js, s.pos).Ok? ==>
              CountFrom(js, s.pos).value + |s.ts| > room
    decreases |js| - s.pos
  {
    if !AtEnd(js, s.pos) {
      var n := Next(js, s, room);
      if n.On? {
        NextCounts(js, s, room);
        RunRoom(js, n.next, room);
      } else if n == Stop(NoMemory) && CountFrom(js, s.pos).Ok? {
        NextRoom(js, s, room);
      }
    }
  }

  lemma {:induction false} NextRoom(js: string, s: Progress, room: nat)
    requires !AtEnd(js, s.pos) && Next(js, s, room) == Stop(NoMemory) && CountFrom(js, s.pos).Ok?
    ensures CountFrom(js, s.pos).value > 0 && |s.ts| >= room
  {
  }

  /** Every token is counted. */
  lemma {:induction false} RunCounts(js: string, s: Progress, room: nat)
    requires Run(js, s, room).On?
    ensures var ts := Run(js, s, room).next.ts; |ts| >= |s.ts| && CountFrom(js, s.pos) == Ok(|ts| - |s.ts|)
    decreases |js| - s.pos
  {
    if !AtEnd(js, s.pos) {
      NextCounts(js, s, room);
      RunCounts(js, Next(js, s, room).next, room);
    }
  }

  /** A token begins and ends in the text as its kind says; an open one has no end yet. */
  predicate Spelled(js: string, kind: Kind, start: int, end: int) {
    && 0 <= start < |js|
    && match kind
       case Object => js[start] == '{' && (end != -1 ==> 0 < end <= |js| && js[end - 1] == '}')
       case Array => js[start] == '[' && (end != -1 ==> 0 < end <= |js| && js[end - 1] == ']')
       case Text => start > 0 && js[start - 1] == '"' && end >= 0 && StringEnd(js, start) == Ok(end)
       case Primitive => IsPrimitiveStart(js[start]) && end >= 0 && PrimitiveEnd(js, start) == Ok(end)
  }

  type Span = (Kind, int, int) -> bool

  function SpelledIn(js: string): Span { (kind, start, end) => Spelled(js, kind, start, end) }

  ghost predicate All(ok: Span, ts: seq<Token>) {
    forall i :: 0 <= i < |ts| ==> ok(ts[i].kind, ts[i].start, ts[i].end)
  }

  lemma {:induction false} AddedAll(ok: Span, ts: seq<Token>, kind: Kind, start: int, end: int, sup: int)
    requires All(ok, ts) && ok(kind, start, end)
    ensures All(ok, Added(ts, kind, start, end, sup))
  {
  }

  lemma {:induction false} ClosingAll(ok: Span, s: Progress, kind: Kind)
    requires All(ok, s.ts) && Closing(s, kind).On?
    requires forall start :: ok(kind, start, -1) ==> ok(kind, start, s.pos + 1)
    ensures All(ok, Closing(s, kind).next.ts)
  {
  }

  lemma {:induction false} EndSpelled(js: string, p: nat, start: int)
    requires p < |js| && IsClosing(js[p]) && Spelled(js, BracketKind(js[p]), start, -1)
    ensures Spelled(js, BracketKind(js[p]), start, p + 1)
  {
  }

  lemma {:induction false} NextSpelled(js: string, s: Progress, room: nat)
    requires !AtEnd(js, s.pos) && All(SpelledIn(js), s.ts) && Next(js, s, room).On?
    ensures All(SpelledIn(js), Next(js, s, room).next.ts)
  {
    var c, ok := js[s.pos], SpelledIn(js);
    if IsClosing(c) {
      forall start | ok(BracketKind(c), start, -1) ensures ok(BracketKind(c), start, s.pos + 1) {
        EndSpelled(js, s.pos, start);
      }
      ClosingAll(ok, s, BracketKind(c));
    } else if IsOpening(c) {
      AddedAll(ok, s.ts, BracketKind(c), s.pos, -1, s.sup);
    } else if c == '"' {
      AddedAll(ok, s.ts, Text, s.pos + 1, StringEnd(js, s.pos + 1).value, s.sup);
    } else if IsPrimitiveStart(c) {
      AddedAll(ok, s.ts, Primitive, s.pos, PrimitiveEnd(js, s.pos).value, s.sup);
    }
  }

  lemma {:induction false} RunSpelled(js: string, s: Progress, room: nat)
    requires All(SpelledIn(js), s.ts) && Run(js, s, room).On?
    ensures All(SpelledIn(js), Run(js, s, room).next.ts)
    decreases |js| - s.pos
  {
    if !AtEnd(js, s.pos) {
      NextSpelled(js, s, room);
      RunSpelled(js, Next(js, s, room).next, room);
    }
  }

  /** What counting the tokens and then reading as many gives. */
  ghost function BothPasses(js: string): Option<seq<Token>> {
    var n := CountFrom(js, 0);
    if n.Ok? && n.value > 0 && Tokens(js, n.value).On? then Some(Tokens(js, n.value).next.ts) else None
  }

  /** `r` and `s` are what `n` says. */
  ghost predicate Follows(n: Step, r: Result, s: Progress) {
    if n.On? then r.Ok? && s == n.next else r == Err(n.error)
  }

  /** Each token by itself: inside the text read so far, and open only if it may have children. */
  ghost predicate Within(t: Token, i: nat, pos: nat) {
    && -1 <= t.parent < i && 0 <= t.start
    && (t.end == -1 ==> t.Container() && t.start < pos)
    && (t.end != -1 ==> t.start <= t.end <= pos)
  }

  ghost predicate Shaped(ts: seq<Token>, pos: nat) {
    forall i :: 0 <= i < |ts| ==> Within(ts[i], i, pos)
  }

  /** The later of two tokens lies inside the earlier one or behind it. */
  ghost predicate Apart(s: Token, t: Token) {
    if s.end == -1 then s.start < t.start
    else Inside(s, t) || s.end <= t.start
  }

  predicate Inside(s: Token, t: Token) { t.end != -1 && s.start < t.start && t.end <= s.end }

  ghost predicate Nested(ts: seq<Token>) {
    forall i, j {:trigger Apart(ts[i], ts[j])} :: 0 <= i < j < |ts| ==> Apart(ts[i], ts[j])
  }

  /** `k` is `from` or an ancestor of it. */
  ghost predicate OnChain(ts: seq<Token>, from: int, k: int)
    decreases if from < 0 then 0 else from + 1
  {
    from == k || (0 <= from < |ts| && -1 <= ts[from].parent < from && OnChain(ts, ts[from].parent, k))
  }

  /** All open tokens are ancestors of `from`. */
  ghost predicate Encloses(ts: seq<Token>, from: int) {
    forall k {:trigger OnChain(ts, from, k)} :: 0 <= k < |ts| && ts[k].end == -1 ==> OnChain(ts, from, k)
  }

  ghost predicate Linked(ts: seq<Token>, sup: int) {
    -1 <= sup < |ts| && Encloses(ts, sup) && Encloses(ts, |ts| - 1)
  }

  ghost function Children(ts: seq<Token>, i: int): nat {
    if ts == [] then 0
    else Children(ts[..|ts| - 1], i) + if ts[|ts| - 1].parent == i then 1 else 0
  }

  ghost predicate Sized(ts: seq<Token>) {
    forall i {:trigger Children(ts, i)} :: 0 <= i < |ts| ==> ts[i].size == Children(ts, i)
  }

  ghost predicate Tree(ts: seq<Token>, sup: int, pos: nat) {
    Shaped(ts, pos) && Nested(ts) && Linked(ts, sup) && Sized(ts)
  }

  ghost predicate SameParents(ts: seq<Token>, us: seq<Token>) {
    |ts| <= |us| && forall i :: 0 <= i < |ts| ==> ts[i].parent == us[i].parent
  }

  lemma {:induction false} ChainSame(ts: seq<Token>, us: seq<Token>, from: int, k: int)
    requires SameParents(ts, us) && from < |ts| && OnChain(ts, from, k)
    ensures OnChain(us, from, k)
    decreases if from < 0 then 0 else from + 1
  {
    if from != k {
      ChainSame(ts, us, ts[from].parent, k);
    }
  }

  lemma {:induction false} ChainBelow(ts: seq<Token>, from: int, k: int)
    requires OnChain(ts, from, k)
    ensures k <= from
    decreases if from < 0 then 0 else from + 1
  {
    if from != k {
      ChainBelow(ts, ts[from].parent, k);
    }
  }

  lemma {:induction false} ChildrenSame(ts: seq<Token>, us: seq<Token>, i: int)
    requires |ts| == |us| && SameParents(ts, us)
    ensures Children(ts, i) == Children(us, i)
  {
    if ts != [] {
      ChildrenSame(ts[..|ts| - 1], us[..|us| - 1], i);
    }
  }

  lemma {:induction false} NoChildren(ts: seq<Token>, i: int)
    requires forall j :: 0 <= j < |ts| ==> ts[j].parent != i
    ensures Children(ts, i) == 0
  {
    if ts != [] {
      NoChildren(ts[..|ts| - 1], i);
    }
  }

  // Adding a token.

  lemma {:induction false} AddSized(ts: seq<Token>, kind: Kind, start: int, end: int, sup: int, pos: nat)
    requires Shaped(ts, pos) && Sized(ts) && -1 <= sup < |ts|
    ensures Sized(Added(ts, kind, start, end, sup))
  {
    var us, vs := Bump(ts, sup), Added(ts, kind, start, end, sup);
    forall i | 0 <= i < |vs| ensures vs[i].size == Children(vs, i) {
      assert vs[..|vs| - 1] == us;
      if i < |ts| {
        ChildrenSame(ts, us, i);
        assert ts[i].size == Children(ts, i);
      } else {
        forall j | 0 <= j < |us| ensures us[j].parent != i {
          assert Within(ts[j], j, pos);
        }
        NoChildren(us, i);
      }
    }
  }

  lemma {:induction false} AddLinked(ts: seq<Token>, kind: Kind, start: int, end: int, sup: int)
    requires Linked(ts, sup)
    ensures Encloses(Added(ts, kind, start, end, sup), |ts|)
    ensures end != -1 ==> Encloses(Added(ts, kind, start, end, sup), sup)
  {
    var vs := Added(ts, kind, start, end, sup);
    forall k | 0 <= k < |vs| && vs[k].end == -1 ensures OnChain(vs, |ts|, k) && (end != -1 ==> OnChain(vs, sup, k)) {
      if k < |ts| {
        assert OnChain(ts, sup, k);
        ChainSame(ts, vs, sup, k);
      }
    }
  }

  lemma {:induction false} AddNested(ts: seq<Token>, kind: Kind, start: int, end: int, sup: int, pos: nat)
    requires Shaped(ts, pos) && Nested(ts) && start >= pos
    ensures Nested(Added(ts, kind, start, end, sup))
  {
    var vs := Added(ts, kind, start, end, sup);
    forall i, j | 0 <= i < j < |vs| ensures Apart(vs[i], vs[j]) {
      assert Within(ts[i], i, pos);
      if j < |ts| {
        assert Apart(ts[i], ts[j]);
      }
    }
  }

  lemma {:induction false} AddShaped(ts: seq<Token>, kind: Kind, start: int, end: int, sup: int, pos: nat, pos': nat)
    requires Shaped(ts, pos) && -1 <= sup < |ts| && pos <= pos'
    requires Within(Token(kind, start, end, 0, sup), |ts|, pos')
    ensures Shaped(Added(ts, kind, start, end, sup), pos')
  {
    var vs := Added(ts, kind, start, end, sup);
    forall i | 0 <= i < |vs| ensures Within(vs[i], i, pos') {
      if i < |ts| {
        assert Within(ts[i], i, pos);
      }
    }
  }

  /** An object or array begins at `pos`. */
  lemma {:induction false} AddContainer(ts: seq<Token>, kind: Kind, sup: int, pos: nat)
    requires Tree(ts, sup, pos) && (kind.Object? || kind.Array?)
    ensures Tree(Added(ts, kind, pos, -1, sup), |ts|, pos + 1)
  {
    AddShaped(ts, kind, pos, -1, sup, pos, pos + 1);
    AddNested(ts, kind, pos, -1, sup, pos);
    AddLinked(ts, kind, pos, -1, sup);
    AddSized(ts, kind, pos, -1, sup, pos);
  }

  /** A string or primitive was read from `start` to `end`. */
  lemma {:induction false} AddLeaf(ts: seq<Token>, kind: Kind, start: nat, end: nat, sup: int, pos: nat, pos': nat)
    requires Tree(ts, sup, pos) && pos <= start <= end <= pos'
    ensures Tree(Added(ts, kind, start, end, sup), sup, pos')
  {
    AddShaped(ts, kind, start, end, sup, pos, pos');
    AddNested(ts, kind, start, end, sup, pos);
    AddLinked(ts, kind, start, end, sup);
    AddSized(ts, kind, start, end, sup, pos);
  }

  // Closing a token.

  /** `i` is the innermost open token. */
  ghost predicate Innermost(ts: seq<Token>, i: nat) {
    i < |ts| && ts[i].end == -1 && Encloses(ts, i)
  }

  lemma {:induction false} CloseNested(ts: seq<Token>, i: nat, sup: int, pos: nat)
    requires Tree(ts, sup, pos) && Innermost(ts, i)
    ensures Nested(Closed(ts, i, pos + 1))
  {
    var us := Closed(ts, i, pos + 1);
    forall a, b | 0 <= a < b < |us| ensures Apart(us[a], us[b]) {
      assert Apart(ts[a], ts[b]) && Within(ts[b], b, pos);
      if a == i && ts[b].end == -1 {
        ChainBelow(ts, i, b);
      }
    }
  }

  lemma {:induction false} CloseLinked(ts: seq<Token>, i: nat, sup: int, pos: nat)
    requires Shaped(ts, pos) && Linked(ts, sup) && Innermost(ts, i)
    ensures Linked(Closed(ts, i, pos + 1), ts[i].parent)
  {
    var us := Closed(ts, i, pos + 1);
    forall k | 0 <= k < |us| && us[k].end == -1 ensures OnChain(us, ts[i].parent, k) && OnChain(us, |us| - 1, k) {
      assert OnChain(ts, i, k) && OnChain(ts, |ts| - 1, k);
      ChainSame(ts, us, |ts| - 1, k);
      ChainSame(ts, us, ts[i].parent, k);
    }
    assert Within(ts[i], i, pos);
  }

  lemma {:induction false} Close(ts: seq<Token>, i: nat, sup: int, pos: nat)
    requires Tree(ts, sup, pos) && Innermost(ts, i)
    ensures Tree(Closed(ts, i, pos + 1), ts[i].parent, pos + 1)
  {
    var us := Closed(ts, i, pos + 1);
    CloseNested(ts, i, sup, pos);
    CloseLinked(ts, i, sup, pos);
    forall k | 0 <= k < |us| ensures Within(us[k], k, pos + 1) {
      assert Within(ts[k], k, pos);
    }
    forall k | 0 <= k < |us| ensures us[k].size == Children(us, k) {
      ChildrenSame(ts, us, k);
      assert ts[k].size == Children(ts, k);
    }
  }

  /** A character that makes no token. */
  lemma {:induction false} Pass(ts: seq<Token>, sup: int, pos: nat)
    requires Tree(ts, sup, pos)
    ensures Tree(ts, sup, pos + 1) && Tree(ts, |ts| - 1, pos + 1)
  {
    forall k | 0 <= k < |ts| ensures Within(ts[k], k, pos + 1) {
      assert Within(ts[k], k, pos);
    }
  }

  /** A comma ends the value of a key. */
  lemma {:induction false} Leave(ts: seq<Token>, sup: int, pos: nat)
    requires Tree(ts, sup, pos) && sup != -1 && !ts[sup].Container()
    ensures Tree(ts, ts[sup].parent, pos + 1)
  {
    Pass(ts, sup, pos);
    assert Within(ts[sup], sup, pos);
    forall k | 0 <= k < |ts| && ts[k].end == -1 ensures OnChain(ts, ts[sup].parent, k) {
      assert OnChain(ts, sup, k);
    }
  }

  /** What the caller gets: closed tokens inside the text, each pair nested or apart, sizes that count children. */
  ghost predicate WellFormed(ts: seq<Token>, js: string) {
    && (forall i :: 0 <= i < |ts| ==> 0 <= ts[i].start <= ts[i].end <= |js|)
    && (forall i, j :: 0 <= i < j < |ts| ==> Inside(ts[i], ts[j]) || ts[i].end <= ts[j].start)
    && (forall i :: 0 <= i < |ts| ==> -1 <= ts[i].parent < i && ts[i].size == Children(ts, i))
  }

  lemma {:induction false} Finish(ts: seq<Token>, sup: int, pos: nat, js: string)
    requires Tree(ts, sup, pos) && pos <= |js|
    requires forall i :: 0 <= i < |ts| ==> !ts[i].Open()
    ensures WellFormed(ts, js)
  {
    forall i | 0 <= i < |ts|
      ensures 0 <= ts[i].start <= ts[i].end <= |js| && -1 <= ts[i].parent < i && ts[i].size == Children(ts, i)
    {
      assert Within(ts[i], i, pos);
    }
    forall i, j | 0 <= i < j < |ts| ensures Inside(ts[i], ts[j]) || ts[i].end <= ts[j].start {
      assert Apart(ts[i], ts[j]);
    }
  }
}
