/**
 * The small part of JavaScript's value semantics that the camera plug-in
 * relies on: `undefined`, truthiness and the `||` default idiom, the
 * conversion of numbers to text by `+`, and `String.prototype.split(' ')`.
 */
module Js {

  /** A JavaScript value that may be `undefined`. */
  datatype Option<+T> = None | Some(value: T)

  /** An exception escaping a call, or normal completion. */
  datatype Completion = Normal | Thrown(message: string)

  /** A value that carries its own success or a thrown error. */
  datatype Result<+T> = Success(value: T) | Failure(message: string)

  /** A number is truthy unless it is undefined or 0. */
  predicate NumberTruthy(v: Option<int>) {
    v.Some? && v.value != 0
  }

  /** A string is truthy unless it is undefined or empty. */
  predicate StringTruthy(v: Option<string>) {
    v.Some? && v.value != ""
  }

  /**
   * `v || fallback` on a number: the first truthy operand, else the
   * fallback; so the result is truthy exactly when one of the two is.
   */
  function NumberOr(v: Option<int>, fallback: int): (r: int)
    ensures NumberTruthy(v) ==> r == v.value
    ensures !NumberTruthy(v) ==> r == fallback
    ensures r != 0 <==> NumberTruthy(v) || fallback != 0
  {
    if NumberTruthy(v) then v.value else fallback
  }

  /**
   * `v || fallback` on a string: the first truthy operand, else the
   * fallback; so the result is truthy exactly when one of the two is.
   */
  function StringOr(v: Option<string>, fallback: string): (r: string)
    ensures StringTruthy(v) ==> r == v.value
    ensures !StringTruthy(v) ==> r == fallback
    ensures r != "" <==> StringTruthy(v) || fallback != ""
  {
    if StringTruthy(v) then v.value else fallback
  }

  // ---------------------------------------------------------------------
  // Numbers as text

  predicate IsDigit(c: char) {
    '0' <= c <= '9'
  }

  function DigitChar(d: nat): (c: char)
    requires d < 10
    ensures IsDigit(c) && c as int - '0' as int == d
  {
    ['0', '1', '2', '3', '4', '5', '6', '7', '8', '9'][d]
  }

  /** The decimal digits of `n`, most significant first, without leading zeros. */
  function NatToString(n: nat): (r: string)
    ensures |r| > 0
    ensures forall i :: 0 <= i < |r| ==> IsDigit(r[i])
    ensures |r| > 1 ==> r[0] != '0'
  {
    if n < 10 then [DigitChar(n)] else NatToString(n / 10) + [DigitChar(n % 10)]
  }

  /** The value of a string of decimal digits. */
  function DigitsValue(s: string): nat
    requires forall i :: 0 <= i < |s| ==> IsDigit(s[i])
  {
    if s == [] then 0
    else
      assert IsDigit(s[|s| - 1]);
      10 * DigitsValue(s[..|s| - 1]) + (s[|s| - 1] as int - '0' as int)
  }

  /** The text of a number is read back as the same number. */
  lemma {:induction false} NatToStringRoundTrip(n: nat)
    ensures DigitsValue(NatToString(n)) == n
  {
    var r := NatToString(n);
    if n >= 10 {
      NatToStringRoundTrip(n / 10);
      assert r[..|r| - 1] == NatToString(n / 10);
    }
  }

  /** `'' + n` for an integer `n`. */
  function IntToString(n: int): (r: string)
    ensures |r| > 0 && NoSpace(r)
    ensures n >= 0 ==> r == NatToString(n)
    ensures n < 0 ==> r == "-" + NatToString(-n)
  {
    if n < 0 then "-" + NatToString(-n) else NatToString(n)
  }

  /** `'' + v` for a number that may be undefined. */
  function ShowNumber(v: Option<int>): (r: string)
    ensures |r| > 0 && NoSpace(r)
    ensures v.Some? ==> r == IntToString(v.value)
    ensures v.None? ==> r == "undefined"
  {
    match v
    case None => "undefined"
    case Some(n) => IntToString(n)
  }

  /** `'' + v` for a string that may be undefined. */
  function ShowString(v: Option<string>): string
  {
    match v
    case None => "undefined"
    case Some(s) => s
  }

  // ---------------------------------------------------------------------
  // Splitting on spaces, and its inverse

  /** The text contains no space. */
  predicate NoSpace(s: string) {
    forall i :: 0 <= i < |s| ==> s[i] != ' '
  }

  /** Text made of two space-free parts is space-free. */
  lemma NoSpaceAppend(a: string, b: string)
    ensures NoSpace(a + b) <==> NoSpace(a) && NoSpace(b)
  {
    if NoSpace(a + b) {
      forall i | 0 <= i < |a| ensures a[i] != ' ' {
        assert a[i] == (a + b)[i];
      }
      forall i | 0 <= i < |b| ensures b[i] != ' ' {
        assert b[i] == (a + b)[|a| + i];
      }
    }
    if NoSpace(a) && NoSpace(b) {
      forall i | 0 <= i < |a + b| ensures (a + b)[i] != ' ' {
        if i < |a| {
          assert (a + b)[i] == a[i];
        } else {
          assert (a + b)[i] == b[i - |a|];
        }
      }
    }
  }

  /** No piece of text contains a space. */
  ghost predicate SpaceFree(xs: seq<string>) {
    forall i :: 0 <= i < |xs| ==> NoSpace(xs[i])
  }

  lemma SpaceFreeAppend(xs: seq<string>, ys: seq<string>)
    requires SpaceFree(xs) && SpaceFree(ys)
    ensures SpaceFree(xs + ys)
  {
  }

  /**
   * `s.split(' ')`: every space ends one piece and starts the next, so
   * leading, trailing and doubled spaces give empty pieces, and the empty
   * string gives one empty piece.
   */
  function Split(s: string): (r: seq<string>)
    ensures |r| >= 1
    ensures SpaceFree(r)
    decreases |s|
  {
    if s == [] then [""]
    else if s[0] == ' ' then [""] + Split(s[1..])
    else
      var t := Split(s[1..]);
      [[s[0]] + t[0]] + t[1..]
  }

  /** `' ' + x` for each `x` in turn, as successive `+= ' ' + x` appends give. */
  function Spaced(xs: seq<string>): string
  {
    if xs == [] then "" else " " + xs[0] + Spaced(xs[1..])
  }

  /** `xs.join(' ')`. */
  function Join(xs: seq<string>): string
    requires |xs| >= 1
  {
    xs[0] + Spaced(xs[1..])
  }

  /** Pieces of text written one after another. */
  function Concat(xs: seq<string>): string
  {
    if xs == [] then "" else xs[0] + Concat(xs[1..])
  }

  lemma {:induction false} ConcatAppend(xs: seq<string>, ys: seq<string>)
    ensures Concat(xs + ys) == Concat(xs) + Concat(ys)
  {
    if xs == [] {
      assert xs + ys == ys;
    } else {
      assert (xs + ys)[0] == xs[0] && (xs + ys)[1..] == xs[1..] + ys;
      ConcatAppend(xs[1..], ys);
    }
  }

  /**
   * One more piece that writes `more` (each word after a space) extends
   * pieces that write `words`.
   */
  lemma ConcatSpacedStep(pieces: seq<string>, words: seq<string>, piece: string, more: seq<string>)
    requires Concat(pieces) == Spaced(words) && piece == Spaced(more)
    ensures Concat(pieces + [piece]) == Spaced(words + more)
  {
    ConcatAppend(pieces, [piece]);
    assert Concat([piece]) == piece + Concat([]) by { assert [piece][1..] == []; }
    SpacedAppend(words, more);
  }

  /**
   * More pieces that write `moreWords` extend pieces that write `prefix`
   * and then `words`.
   */
  lemma ConcatSpacedGroup(prefix: string, pieces: seq<string>, words: seq<string>,
                          morePieces: seq<string>, moreWords: seq<string>)
    requires Concat(pieces) == prefix + Spaced(words) && Concat(morePieces) == Spaced(moreWords)
    ensures Concat(pieces + morePieces) == prefix + Spaced(words + moreWords)
  {
    ConcatAppend(pieces, morePieces);
    SpacedAppend(words, moreWords);
  }

  lemma {:induction false} SpacedAppend(xs: seq<string>, ys: seq<string>)
    ensures Spaced(xs + ys) == Spaced(xs) + Spaced(ys)
  {
    if xs == [] {
      assert xs + ys == ys;
    } else {
      var head, rest := " " + xs[0], xs[1..];
      assert (xs + ys)[0] == xs[0] && (xs + ys)[1..] == rest + ys;
      SpacedAppend(rest, ys);
      assert Spaced(xs + ys) == head + (Spaced(rest) + Spaced(ys));
      assert Spaced(xs) == head + Spaced(rest);
    }
  }

  lemma SpacedSingle(a: string)
    ensures Spaced([a]) == " " + a
  {
    assert Spaced([a]) == " " + a + Spaced([]) by { assert [a][1..] == []; }
  }

  lemma SpacedPair(a: string, b: string)
    ensures Spaced([a, b]) == " " + a + " " + b
  {
    assert [a, b][1..] == [b];
    SpacedSingle(b);
  }

  /** One more append of the text of `more` extends the words written so far. */
  lemma AppendWords(command: string, words: seq<string>, piece: string, more: seq<string>)
    requires piece == Spaced(more)
    ensures command + Spaced(words) + piece == command + Spaced(words + more)
  {
    SpacedAppend(words, more);
  }

  lemma {:induction false} SplitWord(a: string)
    requires NoSpace(a)
    ensures Split(a) == [a]
  {
    if a != [] {
      SplitWord(a[1..]);
      assert [a[0]] + a[1..] == a;
    }
  }

  lemma {:induction false} SplitWordThenSpace(a: string, rest: string)
    requires NoSpace(a)
    ensures Split(a + " " + rest) == [a] + Split(rest)
  {
    if a == [] {
      assert a + " " + rest == " " + rest;
      assert (" " + rest)[1..] == rest;
    } else {
      var s := a + " " + rest;
      assert s[0] == a[0] && s[1..] == a[1..] + " " + rest;
      SplitWordThenSpace(a[1..], rest);
      assert [a[0]] + a[1..] == a;
    }
  }

  lemma {:induction false} SplitSpaceThenWord(s: string, d: string)
    requires NoSpace(d)
    ensures Split(s + " " + d) == Split(s) + [d]
  {
    var text := s + " " + d;
    if s == [] {
      assert text == " " + d && text[1..] == d;
      SplitWord(d);
    } else {
      assert text[0] == s[0] && text[1..] == s[1..] + " " + d;
      SplitSpaceThenWord(s[1..], d);
    }
  }

  /** Joining space-free pieces and splitting again gives the pieces back. */
  lemma {:induction false} SplitJoin(xs: seq<string>)
    requires |xs| >= 1 && SpaceFree(xs)
    ensures Split(Join(xs)) == xs
  {
    if |xs| == 1 {
      assert Join(xs) == xs[0];
      SplitWord(xs[0]);
    } else {
      var tail := xs[1..];
      assert Spaced(tail) == " " + tail[0] + Spaced(tail[1..]);
      assert Join(xs) == xs[0] + " " + Join(tail);
      SplitWordThenSpace(xs[0], Join(tail));
      SplitJoin(tail);
    }
  }

  /**
   * A command built by appending `' ' + x` for each space-free `x` splits
   * into an empty first piece followed by the pieces themselves.
   */
  lemma SplitSpaced(xs: seq<string>)
    requires SpaceFree(xs)
    ensures Split(Spaced(xs)) == [""] + xs
  {
    if xs != [] {
      var joined := Join(xs);
      var text := " " + joined;
      assert Spaced(xs) == text by {
        assert Spaced(xs) == " " + xs[0] + Spaced(xs[1..]);
      }
      assert text[0] == ' ' && text[1..] == joined;
      assert Split(text) == [""] + Split(joined);
      SplitJoin(xs);
    }
  }

  /** Splitting loses nothing: joining the pieces restores the text. */
  lemma {:induction false} JoinSplit(s: string)
    ensures Join(Split(s)) == s
  {
    if s != [] {
      var t := Split(s[1..]);
      JoinSplit(s[1..]);
      assert s == [s[0]] + s[1..];
      if s[0] == ' ' {
        assert Split(s) == [""] + t;
        assert ([""] + t)[1..] == t;
        assert Join(Split(s)) == "" + Spaced(t);
        assert Spaced(t) == " " + t[0] + Spaced(t[1..]);
      } else {
        var r := [[s[0]] + t[0]] + t[1..];
        assert Split(s) == r;
        assert r[0] == [s[0]] + t[0] && r[1..] == t[1..];
        assert Join(r) == [s[0]] + t[0] + Spaced(t[1..]);
      }
    }
  }

  /**
   * `args` is what `s.split(' ')` returns, described without computing it:
   * space-free pieces that, joined with single spaces, give back `s`.
   */
  ghost predicate SplitsInto(s: string, args: seq<string>) {
    |args| >= 1 && SpaceFree(args) && Join(args) == s
  }

  /** The description fits `Split` and nothing else. */
  lemma SplitsIntoSplit(s: string, args: seq<string>)
    ensures SplitsInto(s, args) <==> args == Split(s)
  {
    JoinSplit(s);
    if SplitsInto(s, args) {
      SplitJoin(args);
    }
  }

  /** Pieces that fit the description of `s` end with the last piece of `Split(s)`. */
  lemma SplitsIntoLast(s: string, args: seq<string>, last: string)
    requires SplitsInto(s, args)
    requires Split(s)[|Split(s)| - 1] == last
    ensures args[|args| - 1] == last
  {
    SplitsIntoSplit(s, args);
  }

  /** Any text that starts with a space splits into an empty first piece. */
  lemma LeadingSpace(rest: string)
    ensures Split(" " + rest)[0] == ""
  {
    assert (" " + rest)[1..] == rest;
  }
}
