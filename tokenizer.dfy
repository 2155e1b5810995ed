// The scene-file tokenizer (tokenizer.cpp): whitespace-delimited tokens,
// compared in lower case, with numbers converted on demand.

module Tokens {
  import opened Common

  function LowerChar(c: char): char
  {
    if 'A' <= c <= 'Z' then (c as int - 'A' as int + 'a' as int) as char else c
  }

  /** The lower-case copy of a string: ASCII capitals become small letters. */
  function Downcase(s: string): string
    decreases |s|
  {
    if s == [] then [] else Downcase(s[..|s| - 1]) + [LowerChar(s[|s| - 1])]
  }

  /** Downcasing keeps the length, moves 'A'..'Z' to 'a'..'z' and leaves every
      other character as it is. */
  lemma {:induction false} DowncaseCharwise(s: string)
    ensures |Downcase(s)| == |s|
    ensures forall i :: 0 <= i < |s| && 'A' <= s[i] <= 'Z' ==>
      Downcase(s)[i] as int == s[i] as int + ('a' as int - 'A' as int)
    ensures forall i :: 0 <= i < |s| && !('A' <= s[i] <= 'Z') ==> Downcase(s)[i] == s[i]
    decreases |s|
  {
    if s != [] {
      DowncaseCharwise(s[..|s| - 1]);
    }
  }

  /** A downcased string has no capitals, so downcasing twice changes nothing. */
  lemma DowncaseIdempotent(s: string)
    ensures forall i :: 0 <= i < |Downcase(s)| ==> !('A' <= Downcase(s)[i] <= 'Z')
    ensures Downcase(Downcase(s)) == Downcase(s)
  {
    DowncaseCharwise(s);
    DowncaseCharwise(Downcase(s));
  }

  /** A string without capitals is its own lower-case copy. */
  lemma DowncaseKeepsLowerCase(s: string)
    requires forall i :: 0 <= i < |s| ==> !('A' <= s[i] <= 'Z')
    ensures Downcase(s) == s
  {
    DowncaseCharwise(s);
  }

  /** The character loop of downcase. */
  method DowncaseString(s: string) returns (result: string)
    ensures result == Downcase(s)
  {
    result := "";
    var i := 0;
    while i < |s|
      invariant 0 <= i <= |s|
      invariant result == Downcase(s[..i])
    {
      var c := s[i];
      if 'A' <= c <= 'Z' {
        c := (c as int - 'A' as int + 'a' as int) as char;
      }
      result := result + [c];
      assert s[..i + 1][..i] == s[..i];
      i := i + 1;
    }
    assert s[..i] == s;
  }

  /** A scene file as the stream sees it: its whitespace-delimited tokens, and
      whether whitespace follows the last token. */
  datatype Input = Input(tokens: seq<string>, trailingSpace: bool)

  /** How far the stream has read, and its end-of-file flag. */
  datatype Cursor = Cursor(pos: nat, eof: bool)

  predicate ValidCursor(input: Input, c: Cursor)
  {
    c.pos <= |input.tokens| && (c.eof ==> c.pos == |input.tokens|)
  }

  /** `stream >> token`: the next token, or the empty string once no token is
      left. The end-of-file flag rises when a read reaches the end of the
      file: on the last token when nothing follows it, or when no token is left. */
  function Extract(input: Input, c: Cursor): (r: (string, Cursor))
    requires ValidCursor(input, c)
    ensures ValidCursor(input, r.1)
    ensures c.pos < |input.tokens| ==> r.1.pos == c.pos + 1
    ensures c.pos == |input.tokens| ==> r == ("", Cursor(c.pos, true))
  {
    if c.pos < |input.tokens| then
      (input.tokens[c.pos], Cursor(c.pos + 1, c.pos + 1 == |input.tokens| && !input.trailingSpace))
    else
      ("", Cursor(c.pos, true))
  }

  function NextStringSpec(input: Input, c: Cursor): (string, Cursor)
    requires ValidCursor(input, c)
  {
    var (token, c') := Extract(input, c);
    (Downcase(token), c')
  }

  /** The next token converted to a number; the raw (not downcased) token is converted. */
  function NextNumberSpec(input: Input, convert: string -> Option<real>, c: Cursor): Result<(real, Cursor)>
    requires ValidCursor(input, c)
  {
    var (token, c') := Extract(input, c);
    match convert(token)
    case None => Failure(BadNumber(token))
    case Some(v) => Success((v, c'))
  }

  /** Reading a token that must equal `expected`. */
  function MatchSpec(input: Input, c: Cursor, expected: string): Result<Cursor>
    requires ValidCursor(input, c)
  {
    var (token, c') := NextStringSpec(input, c);
    if token == expected then Success(c') else Failure(MatchFailed(expected, token))
  }

  /** A method's result and new cursor agree with a specification function. */
  predicate Follows<T(==)>(r: Result<T>, spec: Result<(T, Cursor)>, after: Cursor)
  {
    match spec
    case Success(p) => r == Success(p.0) && after == p.1
    case Failure(e) => r == Failure(e)
  }

  class Tokenizer {
    const input: Input
    /** The string-to-float conversion of a string stream, left abstract. */
    const convert: string -> Option<real>
    var pos: nat
    var atEof: bool

    function State(): Cursor
      reads this
    {
      Cursor(pos, atEof)
    }

    ghost predicate Valid()
      reads this
    {
      ValidCursor(input, State())
    }

    /** A tokenizer at the start of an opened file. */
    constructor (input: Input, convert: string -> Option<real>)
      ensures this.input == input && this.convert == convert
      ensures State() == Cursor(0, false) && Valid()
    {
      this.input := input;
      this.convert := convert;
      pos := 0;
      atEof := false;
    }

    function Eof(): bool
      reads this
    {
      atEof
    }

    /** No token is left to read. */
    function Exhausted(): bool
      reads this
    {
      pos >= |input.tokens|
    }

    method ReadToken() returns (token: string)
      requires Valid()
      modifies this
      ensures Valid()
      ensures (token, State()) == Extract(input, old(State()))
    {
      if pos < |input.tokens| {
        token := input.tokens[pos];
        pos := pos + 1;
        atEof := pos == |input.tokens| && !input.trailingSpace;
      } else {
        token := "";
        atEof := true;
      }
    }

    /** The next token in lower case; the empty string at the end of input. */
    method NextString() returns (s: string)
      requires Valid()
      modifies this
      ensures Valid()
      ensures (s, State()) == NextStringSpec(input, old(State()))
      ensures old(pos) < |input.tokens| ==>
        s == Downcase(input.tokens[old(pos)]) && pos == old(pos) + 1
      ensures old(pos) == |input.tokens| ==> s == "" && pos == old(pos) && atEof
    {
      var token := ReadToken();
      s := DowncaseString(token);
    }

    /** The next token as a number, or BadNumber when it does not convert. */
    method NextNumber() returns (r: Result<real>)
      requires Valid()
      modifies this
      ensures Valid()
      ensures Follows(r, NextNumberSpec(input, convert, old(State())), State())
    {
      var token := ReadToken();
      match convert(token)
      case None => r := Failure(BadNumber(token));
      case Some(v) => r := Success(v);
    }

    /** Reads one token and fails unless it equals `pattern`. */
    method Match(pattern: string) returns (o: Outcome)
      requires Valid()
      modifies this
      ensures Valid()
      ensures MatchSpec(input, old(State()), pattern).Success? ==>
        o == Pass && State() == MatchSpec(input, old(State()), pattern).value
      ensures MatchSpec(input, old(State()), pattern).Failure? ==>
        o == Fail(MatchSpec(input, old(State()), pattern).error)
    {
      var token := NextString();
      if token != pattern {
        o := Fail(MatchFailed(pattern, token));
      } else {
        o := Pass;
      }
    }
  }
}
