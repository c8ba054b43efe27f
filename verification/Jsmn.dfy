/** `jsmn_parse`, called first without tokens to count them and then with as many as it counted. */
module Jsmn {
  import opened Wrappers
  import opened Json

  class Parser {
    var pos: nat
    var toknext: nat
    var toksuper: int

    /** `jsmn_init`. */
    constructor ()
      ensures pos == 0 && toknext == 0 && toksuper == -1
    {
      pos, toknext, toksuper := 0, 0, -1;
    }

    ghost function At(tokens: array<Token>): Progress
      reads this, tokens
      requires toknext <= tokens.Length
    {
      Progress(pos, tokens[..toknext], toksuper)
    }

    /** The tokens allocated so far form a tree whose text has been read. */
    ghost predicate Valid(tokens: array<Token>)
      reads this, tokens
    {
      toknext <= tokens.Length && Tree(tokens[..toknext], toksuper, pos)
    }

    /** The four hexadecimal digits after `\u`. */
    method SkipHex(js: string) returns (r: Result)
      modifies this`pos
      ensures r == HexEnd(js, old(pos), 4) && (r.Ok? ==> pos == r.value)
    {
      var i := 0;
      while i < 4 && !AtEnd(js, pos)
        invariant i <= 4 && HexEnd(js, old(pos), 4) == HexEnd(js, pos, 4 - i)
        decreases 4 - i
      {
        if !IsHex(js[pos]) {
          return Err(Invalid);
        }
        pos := pos + 1;
        i := i + 1;
      }
      return Ok(pos);
    }

    /** The scanning part of `jsmn_parse_string`: `pos` moves to the closing quote or stays. */
    method ScanString(js: string) returns (r: Result)
      modifies this`pos
      ensures r == StringEnd(js, old(pos) + 1) && pos == if r.Ok? then r.value else old(pos)
    {
      var start := pos;
      pos := pos + 1;
      while !AtEnd(js, pos)
        invariant StringEnd(js, start + 1) == StringEnd(js, pos)
        decreases |js| - pos
      {
        var c := js[pos];
        if c == '"' {
          return Ok(pos);
        }
        if c == '\\' && pos + 1 < |js| {
          pos := pos + 1;
          if js[pos] == 'u' {
            pos := pos + 1;
            var h := SkipHex(js);
            if h.Err? {
              pos := start;
              return Err(Invalid);
            }
            pos := pos - 1;
          } else if !IsEscape(js[pos]) {
            pos := start;
            return Err(Invalid);
          }
        }
        pos := pos + 1;
      }
      pos := start;
      return Err(Partial);
    }

    /** The scanning part of `jsmn_parse_primitive`: `pos` moves to the delimiter or stays. */
    method ScanPrimitive(js: string) returns (r: Result)
      modifies this`pos
      ensures r == PrimitiveEnd(js, old(pos)) && pos == if r.Ok? then r.value else old(pos)
    {
      var start := pos;
      while !AtEnd(js, pos)
        invariant PrimitiveEnd(js, start) == PrimitiveEnd(js, pos)
        decreases |js| - pos
      {
        if IsDelimiter(js[pos]) {
          return Ok(pos);
        }
        if js[pos] < ' ' || js[pos] >= '\U{7f}' {
          pos := start;
          return Err(Invalid);
        }
        pos := pos + 1;
      }
      pos := start;
      return Err(Partial);
    }

    /** `jsmn_parse` without tokens returns the number of tokens in the text. */
    method CountTokens(js: string) returns (r: Result)
      requires pos == 0 && toknext == 0 && toksuper == -1
      modifies this
      ensures r == CountFrom(js, 0)
      ensures toknext == 0 && toksuper == -1
    {
      var count := 0;
      while !AtEnd(js, pos)
        invariant CountFrom(js, 0) == Plus(CountFrom(js, pos), count)
        invariant toknext == 0 && toksuper == -1
        decreases |js| - pos
      {
        var c := js[pos];
        if IsOpening(c) {
          count := count + 1;
        } else if c == '"' {
          var q := ScanString(js);
          if q.Err? {
            return q;
          }
          count := count + 1;
        } else if c == ':' {
          toksuper := toknext - 1;
        } else if IsPrimitiveStart(c) {
          var q := ScanPrimitive(js);
          if q.Err? {
            return q;
          }
          pos := pos - 1;
          count := count + 1;
        } else if !IsSkipped(c) {
          return Err(Invalid);
        }
        pos := pos + 1;
      }
      return Ok(count);
    }

    /** `jsmn_alloc_token` and `jsmn_fill_token`, and the parent gets one more child. */
    method Allocate(tokens: array<Token>, kind: Kind, start: int, end: int) returns (ok: bool)
      requires toknext <= tokens.Length && -1 <= toksuper < toknext
      modifies this`toknext, tokens
      ensures ok <==> old(toknext) < tokens.Length
      ensures ok ==> toknext == old(toknext) + 1
      ensures ok ==> tokens[..toknext] == Added(old(tokens[..toknext]), kind, start, end, toksuper)
      ensures !ok ==> toknext == old(toknext) && tokens[..] == old(tokens[..])
    {
      if toknext >= tokens.Length {
        return false;
      }
      tokens[toknext] := Token(kind, start, end, 0, toksuper);
      if toksuper != -1 {
        tokens[toksuper] := tokens[toksuper].(size := tokens[toksuper].size + 1);
      }
      toknext := toknext + 1;
      return true;
    }

    /** An opening bracket. */
    method OpenContainer(js: string, tokens: array<Token>) returns (r: Result)
      requires Valid(tokens) && !AtEnd(js, pos) && IsOpening(js[pos])
      modifies this, tokens
      ensures r.Ok? ==> Valid(tokens)
      ensures toknext <= tokens.Length
      ensures Follows(Next(js, old(At(tokens)), tokens.Length), r, At(tokens))
    {
      var kind := BracketKind(js[pos]);
      AddContainer(tokens[..toknext], kind, toksuper, pos);
      var ok := Allocate(tokens, kind, pos, -1);
      if !ok {
        return Err(NoMemory);
      }
      toksuper := toknext - 1;
      pos := pos + 1;
      return Ok(0);
    }

    /** A quoted string. */
    method AddText(js: string, tokens: array<Token>) returns (r: Result)
      requires Valid(tokens) && !AtEnd(js, pos) && js[pos] == '"'
      modifies this, tokens
      ensures r.Ok? ==> Valid(tokens)
      ensures toknext <= tokens.Length
      ensures Follows(Next(js, old(At(tokens)), tokens.Length), r, At(tokens))
    {
      var start := pos;
      NextText(js, At(tokens), tokens.Length);
      var q := ScanString(js);
      if q.Err? {
        return q;
      }
      AddLeaf(tokens[..toknext], Text, start + 1, pos, toksuper, start, pos + 1);
      var ok := Allocate(tokens, Text, start + 1, pos);
      if !ok {
        pos := start;
        return Err(NoMemory);
      }
      pos := pos + 1;
      return Ok(0);
    }

    /** A number, a boolean or null, which must not be a key. */
    method AddPrimitive(js: string, tokens: array<Token>) returns (r: Result)
      requires Valid(tokens) && !AtEnd(js, pos) && IsPrimitiveStart(js[pos])
      modifies this, tokens
      ensures r.Ok? ==> Valid(tokens)
      ensures toknext <= tokens.Length
      ensures Follows(Next(js, old(At(tokens)), tokens.Length), r, At(tokens))
    {
      if toksuper != -1 {
        var t := tokens[toksuper];
        if t.kind.Object? || (t.kind.Text? && t.size != 0) {
          return Err(Invalid);
        }
      }
      var start := pos;
      var q := ScanPrimitive(js);
      if q.Err? {
        return q;
      }
      AddLeaf(tokens[..toknext], Primitive, start, pos, toksuper, start, pos);
      var ok := Allocate(tokens, Primitive, start, pos);
      if !ok {
        pos := start;
        return Err(NoMemory);
      }
      return Ok(0);
    }

    /** A closing bracket ends the innermost open token, found over the parent links. */
    method CloseContainer(c: char, tokens: array<Token>) returns (ok: bool)
      requires Valid(tokens)
      modifies this, tokens
      ensures toknext == old(toknext)
      ensures ok ==> pos == old(pos) + 1 && Valid(tokens)
      ensures Follows(Closing(old(At(tokens)), BracketKind(c)), if ok then Ok(0) else Err(Invalid), At(tokens))
    {
      var kind := BracketKind(c);
      if toknext < 1 {
        return false;
      }
      ghost var ts := tokens[..toknext];
      var i := toknext - 1;
      while true
        invariant 0 <= i < toknext == old(toknext) && tokens[..toknext] == ts && Tree(ts, toksuper, pos)
        invariant Encloses(ts, i) && pos == old(pos) && toknext <= tokens.Length && toksuper == old(toksuper)
        invariant Unclosed(ts, |ts| - 1) == Unclosed(ts, i)
        decreases i
      {
        assert tokens[i] == ts[i] && Within(ts[i], i, pos);
        if tokens[i].Open() {
          if tokens[i].kind != kind {
            return false;
          }
          Close(ts, i, toksuper, pos);
          tokens[i] := tokens[i].(end := pos + 1);
          toksuper := tokens[i].parent;
          pos := pos + 1;
          assert tokens[..toknext] == Closed(ts, i, pos);
          return true;
        }
        if tokens[i].parent == -1 {
          if tokens[i].kind != kind || toksuper == -1 {
            return false;
          }
          Pass(ts, toksuper, pos);
          pos := pos + 1;
          return true;
        }
        Outward(ts, i);
        i := tokens[i].parent;
      }
    }

    /** `jsmn_parse` with tokens: it finds the same tokens as without, so as many as were counted are
    enough; what it accepts is a tree of closed tokens. */
    method Parse(js: string, tokens: array<Token>) returns (r: Result)
      requires pos == 0 && toknext == 0 && toksuper == -1
      modifies this, tokens
      ensures CountFrom(js, 0).Ok? && CountFrom(js, 0).value <= tokens.Length ==> r != Err(NoMemory)
      ensures r.Ok? ==> r == CountFrom(js, 0) && r.value == toknext <= tokens.Length
      ensures r.Ok? ==> WellFormed(tokens[..toknext], js) && All(SpelledIn(js), tokens[..toknext])
      ensures var n := Tokens(js, tokens.Length);
        if n.On? then r.Ok? && tokens[..toknext] == n.next.ts else r == Err(n.error)
    {
      assert tokens[..0] == [];
      RunRoom(js, Progress(0, [], -1), tokens.Length);
      while !AtEnd(js, pos)
        invariant pos <= |js| && Valid(tokens)
        invariant Run(js, Progress(0, [], -1), tokens.Length) == Run(js, At(tokens), tokens.Length)
        decreases |js| - pos
      {
        var s := Step(js, tokens);
        if s.Err? {
          return s;
        }
      }
      for i := toknext downto 0
        invariant forall k :: i <= k < toknext ==> !tokens[k].Open()
      {
        if tokens[i].Open() {
          return Err(Partial);
        }
      }
      Finish(tokens[..toknext], toksuper, pos, js);
      RunCounts(js, Progress(0, [], -1), tokens.Length);
      RunSpelled(js, Progress(0, [], -1), tokens.Length);
      return Ok(toknext);
    }

    /** One round of the loop. */
    method Step(js: string, tokens: array<Token>) returns (r: Result)
      requires !AtEnd(js, pos) && Valid(tokens)
      modifies this, tokens
      ensures r.Ok? ==> Valid(tokens)
      ensures toknext <= tokens.Length
      ensures Follows(Next(js, old(At(tokens)), tokens.Length), r, At(tokens))
    {
      var c := js[pos];
      if IsOpening(c) {
        r := OpenContainer(js, tokens);
      } else if IsClosing(c) {
        var ok := CloseContainer(c, tokens);
        r := if ok then Ok(0) else Err(Invalid);
      } else if c == '"' {
        r := AddText(js, tokens);
      } else if IsPrimitiveStart(c) {
        r := AddPrimitive(js, tokens);
      } else if IsSkipped(c) {
        SkipOver(c, tokens);
        r := Ok(0);
      } else {
        r := Err(Invalid);
      }
    }

    /** White space, a colon or a comma. */
    method SkipOver(c: char, tokens: array<Token>)
      requires Valid(tokens)
      modifies this
      ensures pos == old(pos) + 1 && toknext == old(toknext) && Valid(tokens)
      ensures toksuper == if c == ':' then toknext - 1
                          else if c == ',' && IsLeaf(old(tokens[..toknext]), old(toksuper))
                          then old(tokens[..toknext])[old(toksuper)].parent
                          else old(toksuper)
    {
      Pass(tokens[..toknext], toksuper, pos);
      if c == ':' {
        toksuper := toknext - 1;
      } else if c == ',' && toksuper != -1 && !tokens[toksuper].Container() {
        Leave(tokens[..toknext], toksuper, pos);
        toksuper := tokens[toksuper].parent;
      }
      pos := pos + 1;
    }
  }

  /** From a token that is not open the search goes on with its parent. */
  lemma {:induction false} Outward(ts: seq<Token>, i: nat)
    requires i < |ts| && Encloses(ts, i) && ts[i].end != -1
    ensures Encloses(ts, ts[i].parent)
  {
    forall k | 0 <= k < |ts| && ts[k].end == -1 ensures OnChain(ts, ts[i].parent, k) {
      assert OnChain(ts, i, k);
    }
  }

  /** Both passes, as `mapdef_parse` makes them: the second never lacks tokens. */
  method TwoPasses(js: string) returns (r: Result, tokens: array<Token>)
    ensures r != Err(NoMemory)
    ensures r.Ok? ==> r == CountFrom(js, 0) && tokens.Length == r.value > 0
    ensures r.Ok? ==> WellFormed(tokens[..], js) && All(SpelledIn(js), tokens[..])
    ensures if r.Ok? then BothPasses(js) == Some(tokens[..]) else BothPasses(js) == None
  {
    tokens := new Token[0];
    var p := new Parser();
    r := p.CountTokens(js);
    if r.Err? || r.value == 0 {
      return Err(Invalid), tokens;
    }
    tokens := new Token[r.value](_ => Token(Primitive, 0, 0, 0, 0));
    p := new Parser();
    r := p.Parse(js, tokens);
    if r.Ok? {
      assert tokens[..p.toknext] == tokens[..];
    }
  }
}
