/**
 * The subset of Python regular expressions that the phone-number validator
 * uses, with the language each pattern denotes: a pattern `Matches` a string
 * when some way of reading the whole string through the pattern exists, which
 * is the set of strings Python's backtracking matcher accepts.
 */
module Regex {

  datatype Re =
    | Chars(w: string) // a run of literal characters
    | Digit            // `\d`, restricted to the ASCII digits
    | Opt(r: Re)       // `r?`
    | Alt(a: Re, b: Re) // `a|b`
    | Cat(a: Re, b: Re) // `ab`
    | Rep(r: Re, n: nat) // `r{n}`
    | Group(r: Re)     // `(r)` or `(?:r)`: capturing does not change the language

  predicate IsDigit(c: char) { '0' <= c <= '9' }

  predicate AllDigits(s: string) { forall i :: 0 <= i < |s| ==> IsDigit(s[i]) }

  predicate Matches(r: Re, s: string)
    decreases r, 0
  {
    match r
    case Chars(w) => s == w
    case Digit => |s| == 1 && IsDigit(s[0])
    case Opt(x) => s == [] || Matches(x, s)
    case Alt(a, b) => Matches(a, s) || Matches(b, s)
    case Cat(a, b) => exists i :: 0 <= i <= |s| && Matches(a, s[..i]) && Matches(b, s[i..])
    case Rep(x, n) => RepMatches(x, n, s)
    case Group(x) => Matches(x, s)
  }

  /** `s` is `n` consecutive pieces, each matched by `r`. */
  predicate RepMatches(r: Re, n: nat, s: string)
    decreases r, n + 1
  {
    if n == 0 then s == []
    else exists i :: 0 <= i <= |s| && Matches(r, s[..i]) && RepMatches(r, n - 1, s[i..])
  }

  /**
   * Python's `re.search` with the pattern `^r$` and no flags: `^` anchors at
   * the start of the string, and `$` matches at the end of the string or just
   * before a newline that is the last character.
   */
  predicate SearchAnchored(r: Re, s: string)
  {
    Matches(r, s) || (|s| > 0 && s[|s| - 1] == '\n' && Matches(r, s[..|s| - 1]))
  }

  /** A pattern whose every match has length `k`. */
  ghost predicate FixedLength(r: Re, k: nat)
  {
    forall t :: Matches(r, t) ==> |t| == k
  }

  lemma CharsFixedLength(w: string)
    ensures FixedLength(Chars(w), |w|)
  {
  }

  /** A concatenation whose left part has a fixed length splits at that length. */
  lemma CatFixedLeft(a: Re, b: Re, k: nat, s: string)
    requires FixedLength(a, k)
    ensures Matches(Cat(a, b), s) <==> k <= |s| && Matches(a, s[..k]) && Matches(b, s[k..])
  {
    if Matches(Cat(a, b), s) {
      var i :| 0 <= i <= |s| && Matches(a, s[..i]) && Matches(b, s[i..]);
      assert |s[..i]| == k;
    }
    if k <= |s| && Matches(a, s[..k]) && Matches(b, s[k..]) {
      assert 0 <= k <= |s| && Matches(a, s[..k]) && Matches(b, s[k..]);
    }
  }

  /** A match of a concatenation whose right part has a fixed length splits that far from the end. */
  lemma CatFixedRightSplit(a: Re, b: Re, k: nat, s: string)
    requires FixedLength(b, k) && Matches(Cat(a, b), s)
    ensures k <= |s| && Matches(a, s[..|s| - k]) && Matches(b, s[|s| - k..])
  {
    var i :| 0 <= i <= |s| && Matches(a, s[..i]) && Matches(b, s[i..]);
    var tail := s[i..];
    assert Matches(b, tail);
    assert |tail| == k;
    assert i == |s| - k;
    assert s[..|s| - k] == s[..i] && s[|s| - k..] == tail;
  }

  /** A concatenation whose right part has a fixed length splits that far from the end. */
  lemma CatFixedRight(a: Re, b: Re, k: nat, s: string)
    requires FixedLength(b, k)
    ensures Matches(Cat(a, b), s) <==> k <= |s| && Matches(a, s[..|s| - k]) && Matches(b, s[|s| - k..])
  {
    if Matches(Cat(a, b), s) {
      CatFixedRightSplit(a, b, k, s);
    }
  }

  /** `\d{n}` matches exactly the strings of `n` ASCII digits. */
  lemma {:induction false} RepDigits(n: nat, s: string)
    ensures RepMatches(Digit, n, s) <==> |s| == n && AllDigits(s)
    decreases n
  {
    if n > 0 {
      if RepMatches(Digit, n, s) {
        var i :| 0 <= i <= |s| && Matches(Digit, s[..i]) && RepMatches(Digit, n - 1, s[i..]);
        RepDigits(n - 1, s[i..]);
        assert i == 1;
        forall j | 0 <= j < |s| ensures IsDigit(s[j]) {
          if j > 0 { assert s[j] == s[1..][j - 1]; }
        }
      }
      if |s| == n && AllDigits(s) {
        assert AllDigits(s[1..]) by {
          forall j | 0 <= j < |s[1..]| ensures IsDigit(s[1..][j]) { assert s[1..][j] == s[j + 1]; }
        }
        RepDigits(n - 1, s[1..]);
        assert Matches(Digit, s[..1]);
      }
    }
  }

  lemma RepDigitsFixedLength(n: nat)
    ensures FixedLength(Rep(Digit, n), n)
  {
    forall t | Matches(Rep(Digit, n), t) ensures |t| == n {
      RepDigits(n, t);
    }
  }
}
