/** Reading a JSON Pointer (tools/artifacts/json_path.py) as the inverse of the escaping that RFC 6901
    sections 3 and 4 prescribe. */
module Pointers {
  import opened Numerals

  datatype Step = Index(n: nat) | Key(name: string)

  // ---------------------------------------------------------------------------------------------
  // The reader.

  /** Python's split on a slash: always at least one piece. */
  function Split(s: string): (pieces: seq<string>)
    ensures pieces != []
  {
    if s == [] then [[]]
    else
      var rest := Split(s[1..]);
      if s[0] == '/' then [[]] + rest else [[s[0]] + rest[0]] + rest[1..]
  }

  /** Python's replace of a two-character pattern: left to right, without overlaps. */
  function Replace(s: string, a: char, b: char, put: char): string {
    if s == [] then []
    else if |s| >= 2 && s[0] == a && s[1] == b then [put] + Replace(s[2..], a, b, put)
    else [s[0]] + Replace(s[1..], a, b, put)
  }

  function Unescape(token: string): string {
    Replace(Replace(token, '~', '1', '/'), '~', '0', '~')
  }

  function StepOf(token: string): Step {
    if IsDecimal(token) then Index(Value(token)) else Key(Unescape(token))
  }

  function StepsOf(tokens: seq<string>): (steps: seq<Step>)
    ensures |steps| == |tokens|
  {
    if tokens == [] then [] else [StepOf(tokens[0])] + StepsOf(tokens[1..])
  }

  function PathOf(pointer: string): seq<Step> {
    StepsOf(Split(pointer)[1..])
  }

  // ---------------------------------------------------------------------------------------------
  // The two replacements are one left-to-right decoding.

  function Decode(token: string): string {
    if token == [] then []
    else if |token| >= 2 && token[0] == '~' && token[1] == '1' then ['/'] + Decode(token[2..])
    else if |token| >= 2 && token[0] == '~' && token[1] == '0' then ['~'] + Decode(token[2..])
    else [token[0]] + Decode(token[1..])
  }

  /** What the first replacement leaves at the front of a token. */
  lemma FirstReplacedChar(token: string)
    requires token != []
    ensures var r := Replace(token, '~', '1', '/');
      r != [] && (r[0] == '0' <==> token[0] == '0')
  {
  }

  lemma {:induction false} UnescapeIsDecode(token: string)
    ensures Unescape(token) == Decode(token)
  {
    if token != [] {
      var r := Replace(token, '~', '1', '/');
      if |token| >= 2 && token[0] == '~' && token[1] == '1' {
        UnescapeIsDecode(token[2..]);
        assert r[1..] == Replace(token[2..], '~', '1', '/');
      } else {
        assert r[1..] == Replace(token[1..], '~', '1', '/');
        if |token| >= 2 {
          FirstReplacedChar(token[1..]);
        }
        if |token| >= 2 && token[0] == '~' && token[1] == '0' {
          UnescapeIsDecode(token[2..]);
          assert token[1..][1..] == token[2..];
          assert r[2..] == Replace(token[2..], '~', '1', '/');
        } else {
          UnescapeIsDecode(token[1..]);
        }
      }
    }
  }

  /** The other order would decode twice. */
  lemma OtherOrderDecodesTwice()
    ensures Replace(Replace("~01", '~', '0', '~'), '~', '1', '/') == "/" && Decode("~01") == "~1"
  {
    var s := "~01";
    assert s[2..] == "1" && "1"[1..] == "";
    var t := "~1";
    assert t[2..] == "";
    assert Replace(s, '~', '0', '~') == t;
  }

  // ---------------------------------------------------------------------------------------------
  // The writer of RFC 6901, and the round trip.

  function Escape(key: string): string {
    if key == [] then []
    else (if key[0] == '~' then "~0" else if key[0] == '/' then "~1" else [key[0]]) + Escape(key[1..])
  }

  function TokenOf(step: Step): string {
    match step
    case Index(n) => Digits(n)
    case Key(name) => Escape(name)
  }

  function PointerOf(steps: seq<Step>): string {
    if steps == [] then [] else ['/'] + TokenOf(steps[0]) + PointerOf(steps[1..])
  }

  lemma {:induction false} DecodeEscape(key: string)
    ensures Decode(Escape(key)) == key
  {
    if key != [] {
      DecodeEscape(key[1..]);
      if key[0] == '~' || key[0] == '/' {
        assert Escape(key)[2..] == Escape(key[1..]);
      } else {
        assert Escape(key)[1..] == Escape(key[1..]);
      }
    }
  }

  lemma {:induction false} EscapedHasNoSlash(key: string)
    ensures '/' !in Escape(key)
  {
    if key != [] {
      EscapedHasNoSlash(key[1..]);
    }
  }

  /** Escaping neither makes nor loses an all-digit token. */
  lemma {:induction false} EscapeKeepsDigits(key: string)
    ensures (forall i :: 0 <= i < |Escape(key)| ==> IsDigit(Escape(key)[i])) <==> (forall i :: 0 <= i < |key| ==> IsDigit(key[i]))
    ensures Escape(key) == [] <==> key == []
    ensures IsDecimal(key) ==> Escape(key) == key
  {
    if key != [] {
      EscapeKeepsDigits(key[1..]);
      if IsDigit(key[0]) {
        assert Escape(key)[1..] == Escape(key[1..]);
        assert key == [key[0]] + key[1..];
      } else {
        assert !IsDigit(Escape(key)[0]);
      }
    }
  }

  /** A step reads back as itself unless it is a key made of digits only. */
  lemma StepRoundTrip(step: Step)
    ensures StepOf(TokenOf(step)) == step <==> (step.Key? ==> !IsDecimal(step.name))
  {
    match step
    case Index(n) => DigitsRead(n);
    case Key(name) =>
      EscapeKeepsDigits(name);
      DecodeEscape(name);
      UnescapeIsDecode(Escape(name));
  }

  lemma TokenHasNoSlash(step: Step)
    ensures '/' !in TokenOf(step)
  {
    match step
    case Index(n) =>
      DigitsRead(n);
    case Key(name) => EscapedHasNoSlash(name);
  }

  lemma {:induction false} SplitAtSlash(token: string, rest: string)
    requires '/' !in token && (rest == [] || rest[0] == '/')
    ensures Split(token + rest) == [token] + Split(rest)[1..]
  {
    if token == [] {
      assert token + rest == rest;
    } else {
      assert (token + rest)[1..] == token[1..] + rest;
      SplitAtSlash(token[1..], rest);
      assert [token[0]] + token[1..] == token;
    }
  }

  /** The tokens written are the tokens read. */
  lemma {:induction false} SplitPointer(steps: seq<Step>)
    ensures |Split(PointerOf(steps))| == |steps| + 1
    ensures forall i :: 0 <= i < |steps| ==> Split(PointerOf(steps))[i + 1] == TokenOf(steps[i])
  {
    if steps != [] {
      var rest := PointerOf(steps[1..]);
      SplitPointer(steps[1..]);
      TokenHasNoSlash(steps[0]);
      SplitAtSlash(TokenOf(steps[0]), rest);
      assert PointerOf(steps) == ['/'] + (TokenOf(steps[0]) + rest);
      assert PointerOf(steps)[1..] == TokenOf(steps[0]) + rest;
    }
  }

  lemma {:induction false} StepsOfEach(tokens: seq<string>)
    ensures forall i :: 0 <= i < |tokens| ==> StepsOf(tokens)[i] == StepOf(tokens[i])
  {
    if tokens != [] {
      StepsOfEach(tokens[1..]);
    }
  }

  /** A path escaped and joined as the RFC prescribes reads back as the same path exactly when none of
      its keys consists of digits only; such a key comes back as an index. */
  lemma PathRoundTrip(steps: seq<Step>)
    ensures |PathOf(PointerOf(steps))| == |steps|
    ensures PathOf(PointerOf(steps)) == steps <==> forall i :: 0 <= i < |steps| && steps[i].Key? ==> !IsDecimal(steps[i].name)
  {
    SplitPointer(steps);
    StepsOfEach(Split(PointerOf(steps))[1..]);
    forall i | 0 <= i < |steps|
      ensures PathOf(PointerOf(steps))[i] == StepOf(TokenOf(steps[i]))
      ensures StepOf(TokenOf(steps[i])) == steps[i] <==> (steps[i].Key? ==> !IsDecimal(steps[i].name))
    {
      StepRoundTrip(steps[i]);
    }
  }

  /** Text in front of the first slash is dropped without complaint. */
  lemma LeadingTextIsDropped(front: string, steps: seq<Step>)
    requires '/' !in front
    ensures PathOf(front + PointerOf(steps)) == PathOf(PointerOf(steps))
  {
    SplitAtSlash(front, PointerOf(steps));
    assert ([front] + Split(PointerOf(steps))[1..])[1..] == Split(PointerOf(steps))[1..];
  }
}
