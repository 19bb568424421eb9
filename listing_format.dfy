/**
 * Messages written as `Label: value` lines, one field per line, the way
 * sellers are asked to write them and the parser test writes its samples.
 *
 * On such a text the leftmost-match semantics of the field patterns
 * reduces to a lookup over the lines: `key:` can only occur where a
 * line's tag ends, so the capture for a field is the one of the first
 * line whose tag ends with the field name and whose rest matches.
 */
module ListingFormat {
  import opened Wrappers
  import opened JsText
  import opened ListingParser

  datatype FieldLine = FieldLine(tag: string, value: string)

  /** No colon and no line terminator. */
  predicate Plain(x: string) {
    forall i :: 0 <= i < |x| ==> x[i] != ':' && !IsLineTerminator(x[i])
  }

  predicate WellFormed(ls: seq<FieldLine>) {
    forall i :: 0 <= i < |ls| ==> Plain(ls[i].tag) && Plain(ls[i].value)
  }

  function LineText(l: FieldLine): string { l.tag + ": " + l.value }

  /** The lines joined by newlines. */
  function Render(ls: seq<FieldLine>): string
    decreases |ls|, 1
  {
    if ls == [] then [] else LineText(ls[0]) + Rest(ls[1..])
  }

  /** What follows a line: nothing after the last one, else a newline and the next lines. */
  function Rest(ls: seq<FieldLine>): (r: string)
    ensures r == [] || r[0] == '\n'
    decreases |ls|, 2
  {
    if ls == [] then [] else "\n" + Render(ls)
  }

  /** The capture of the first line whose tag ends with `field` and whose remainder matches `shape`. */
  function Lookup(ls: seq<FieldLine>, field: string, shape: Shape): Option<string>
    decreases |ls|
  {
    if ls == [] then None
    else
      var m := MatchAfterLabel(" " + ls[0].value + Rest(ls[1..]), shape);
      if SuffixCI(ls[0].tag, field) && m.Some? then m else Lookup(ls[1..], field, shape)
  }

  /** The lookup passes over lines whose tag does not end with the field name. */
  lemma {:induction false} LookupFrom(ls: seq<FieldLine>, field: string, shape: Shape, i: nat)
    requires i <= |ls|
    requires forall j :: 0 <= j < i ==> !SuffixCI(ls[j].tag, field)
    ensures Lookup(ls, field, shape) == Lookup(ls[i..], field, shape)
    decreases i
  {
    if i > 0 {
      assert ls[1..][i - 1..] == ls[i..];
      assert forall j :: 0 <= j < i - 1 ==> ls[1..][j] == ls[j + 1];
      LookupFrom(ls[1..], field, shape, i - 1);
    }
  }

  /** A line whose tag ends with the field name and whose remainder matches gives the lookup's result. */
  lemma LookupAt(ls: seq<FieldLine>, field: string, shape: Shape, i: nat)
    requires i < |ls|
    requires forall j :: 0 <= j < i ==> !SuffixCI(ls[j].tag, field)
    requires SuffixCI(ls[i].tag, field)
    requires MatchAfterLabel(" " + ls[i].value + Rest(ls[i + 1..]), shape).Some?
    ensures Lookup(ls, field, shape) == MatchAfterLabel(" " + ls[i].value + Rest(ls[i + 1..]), shape)
  {
    LookupFrom(ls, field, shape, i);
    assert ls[i..][0] == ls[i] && ls[i..][1..] == ls[i + 1..];
  }

  /** Without any line whose tag ends with the field name, nothing is found. */
  lemma LookupNone(ls: seq<FieldLine>, field: string, shape: Shape)
    requires forall j :: 0 <= j < |ls| ==> !SuffixCI(ls[j].tag, field)
    ensures Lookup(ls, field, shape).None?
  {
    LookupFrom(ls, field, shape, |ls|);
  }

  lemma PlainAppend(a: string, b: string)
    requires Plain(a) && Plain(b)
    ensures Plain(a + b)
  {
  }

  /** The pattern for `key` matches at the start of `u`: the branch `Extract` takes. */
  predicate StartsHere(u: string, key: string, shape: Shape) {
    PrefixCI(u, key) && MatchAfterLabel(u[|key|..], shape).Some?
  }

  /** The pattern for `key` matches at position `p` of `s`. */
  predicate Hit(s: string, p: nat, key: string, shape: Shape) {
    p <= |s| && StartsHere(s[p..], key, shape)
  }

  /** Positions before the first hit can be dropped. */
  lemma {:induction false} ExtractSkip(s: string, key: string, shape: Shape, q: nat)
    requires key != [] && q <= |s|
    requires forall p :: 0 <= p < q ==> !Hit(s, p, key, shape)
    ensures Extract(s, key, shape) == Extract(s[q..], key, shape)
    decreases q
  {
    if q > 0 && |s| >= |key| {
      assert !Hit(s, 0, key, shape);
      assert s[0..] == s;
      forall p | 0 <= p < q - 1
        ensures !Hit(s[1..], p, key, shape)
      {
        assert !Hit(s, p + 1, key, shape);
        assert s[1..][p..] == s[p + 1..];
      }
      ExtractSkip(s[1..], key, shape, q - 1);
      assert s[1..][q - 1..] == s[q..];
    }
  }

  /** Lower-casing maps only a colon to a colon and only a newline to a newline. */
  lemma LowerFixed(c: char)
    ensures LowerChar(c) == ':' <==> c == ':'
    ensures LowerChar(c) == '\n' <==> c == '\n'
  {
  }

  /** The only colon of a line of plain tag and value is the one after the tag. */
  lemma OneColon(l: FieldLine)
    requires Plain(l.tag) && Plain(l.value)
    ensures forall k :: 0 <= k < |LineText(l)| && LineText(l)[k] == ':' ==> k == |l.tag|
  {
    var t := LineText(l);
    assert forall k :: 0 <= k < |l.tag| ==> t[k] == l.tag[k];
    assert forall k :: |l.tag| + 2 <= k < |t| ==> t[k] == l.value[k - |l.tag| - 2];
  }

  /**
   * In a line followed by nothing or a newline, `field:` (with a plain
   * `field`) can start only where the tag's last `|field|` characters do.
   */
  lemma KeyOccurrence(l: FieldLine, r: string, field: string, p: nat)
    requires Plain(l.tag) && Plain(l.value) && Plain(field)
    requires r == [] || r[0] == '\n'
    requires p <= |LineText(l)|
    requires PrefixCI((LineText(l) + r)[p..], field + ":")
    ensures |field| <= |l.tag| && p == |l.tag| - |field|
  {
    var t := LineText(l) + r;
    var key := field + ":";
    var j := p + |key| - 1;
    forall k | p <= k < p + |key|
      ensures t[k] != '\n'
    {
      assert Lower(t[p..][..|key|])[k - p] == key[k - p];
      LowerFixed(t[k]);
    }
    assert Lower(t[p..][..|key|])[|key| - 1] == ':';
    LowerFixed(t[j]);
    if r != [] { assert t[|LineText(l)|] == '\n'; }
    assert j < |LineText(l)|;
    OneColon(l);
    assert LineText(l)[j] == t[j];
  }

  /** At the tag's end, `field:` occurs exactly when the tag ends with `field`; the rest follows the colon. */
  lemma AtColon(l: FieldLine, r: string, field: string)
    requires |field| <= |l.tag|
    ensures var t := LineText(l) + r;
      var p := |l.tag| - |field|;
      (PrefixCI(t[p..], field + ":") <==> SuffixCI(l.tag, field))
      && t[p..][|field + ":"|..] == " " + l.value + r
  {
    var t := LineText(l) + r;
    var p := |l.tag| - |field|;
    var key := field + ":";
    var u := Lower(l.tag[p..]);
    assert t[p..][..|key|] == l.tag[p..] + ":";
    assert Lower(l.tag[p..] + ":") == u + ":";
    assert u + ":" == key ==> u == (u + ":")[..|u|] == key[..|u|] == field;
    assert t[p..][|key|..] == " " + l.value + r;
  }

  /** Within a line and its newline, the pattern can only match at the tag's end. */
  lemma NoOtherHit(l: FieldLine, r: string, field: string, shape: Shape)
    requires Plain(l.tag) && Plain(l.value) && Plain(field)
    requires r == [] || r[0] == '\n'
    ensures var stop := if r == [] then |LineText(l)| else |LineText(l)| + 1;
      forall p :: 0 <= p < stop && p != |l.tag| - |field| ==> !Hit(LineText(l) + r, p, field + ":", shape)
  {
    var stop := if r == [] then |LineText(l)| else |LineText(l)| + 1;
    forall p | 0 <= p < stop && p != |l.tag| - |field|
      ensures !Hit(LineText(l) + r, p, field + ":", shape)
    {
      if Hit(LineText(l) + r, p, field + ":", shape) { KeyOccurrence(l, r, field, p); }
    }
  }

  /** When the first line's tag ends with the field name and its remainder matches, its capture is the result. */
  lemma FirstLineHit(l: FieldLine, r: string, field: string, shape: Shape)
    requires Plain(l.tag) && Plain(l.value) && Plain(field) && field != []
    requires r == [] || r[0] == '\n'
    requires SuffixCI(l.tag, field) && MatchAfterLabel(" " + l.value + r, shape).Some?
    ensures Extract(LineText(l) + r, field + ":", shape) == MatchAfterLabel(" " + l.value + r, shape)
  {
    var t := LineText(l) + r;
    var p := |l.tag| - |field|;
    NoOtherHit(l, r, field, shape);
    AtColon(l, r, field);
    ExtractSkip(t, field + ":", shape, p);
  }

  /** Otherwise the search goes on after the newline that ends the line, or finds nothing at the end. */
  lemma FirstLineMiss(l: FieldLine, r: string, field: string, shape: Shape)
    requires Plain(l.tag) && Plain(l.value) && Plain(field) && field != []
    requires r == [] || r[0] == '\n'
    requires !(SuffixCI(l.tag, field) && MatchAfterLabel(" " + l.value + r, shape).Some?)
    ensures Extract(LineText(l) + r, field + ":", shape) ==
      if r == [] then None else Extract(r[1..], field + ":", shape)
  {
    var t := LineText(l) + r;
    var stop := if r == [] then |LineText(l)| else |LineText(l)| + 1;
    NoOtherHit(l, r, field, shape);
    if |field| <= |l.tag| { AtColon(l, r, field); }
    ExtractSkip(t, field + ":", shape, stop);
    assert t[stop..] == if r == [] then [] else r[1..];
  }

  /** On a text of field lines, a field's capture is that of its first matching line. */
  lemma {:induction false} ExtractRendered(ls: seq<FieldLine>, field: string, shape: Shape)
    requires WellFormed(ls) && Plain(field) && field != []
    ensures Extract(Render(ls), field + ":", shape) == Lookup(ls, field, shape)
    decreases |ls|
  {
    if ls != [] {
      var r := Rest(ls[1..]);
      if SuffixCI(ls[0].tag, field) && MatchAfterLabel(" " + ls[0].value + r, shape).Some? {
        FirstLineHit(ls[0], r, field, shape);
      } else {
        FirstLineMiss(ls[0], r, field, shape);
      }
      assert WellFormed(ls[1..]) by {
        forall i | 0 <= i < |ls[1..]|
          ensures Plain(ls[1..][i].tag) && Plain(ls[1..][i].value)
        {
          assert ls[1..][i] == ls[i + 1];
        }
      }
      ExtractRendered(ls[1..], field, shape);
    }
  }

  // ---------------------------------------------------------------- one line's remainder

  /** A plain value on its own line is captured by `(.+?)`, trimmed. */
  lemma MatchLine(v: string, r: string)
    requires Plain(v) && v != [] && !IsSpace(v[0])
    requires r == [] || r[0] == '\n'
    ensures MatchAfterLabel(" " + v + r, Line) == Some(Trim(v))
  {
    var t := " " + v + r;
    assert SkipSpace(t, 1) == 1;
    assert LineEnd(t, 1 + |v|) == 1 + |v|;
    LineEndRun(t, 1, 1 + |v|);
    assert t[1..1 + |v|] == v;
  }

  /** `LineEnd` runs over characters that are not line terminators. */
  lemma {:induction false} LineEndRun(t: string, k: nat, e: nat)
    requires k <= e <= |t|
    requires forall m :: k <= m < e ==> !IsLineTerminator(t[m])
    ensures LineEnd(t, k) == LineEnd(t, e)
    decreases e - k
  {
    if k < e { LineEndRun(t, k + 1, e); }
  }

  /** `DigitCommaEnd` runs over digits and commas. */
  lemma {:induction false} DigitCommaRun(t: string, k: nat, e: nat)
    requires k <= e <= |t|
    requires forall m :: k <= m < e ==> IsDigitOrComma(t[m])
    ensures DigitCommaEnd(t, k) == DigitCommaEnd(t, e)
    decreases e - k
  {
    if k < e { DigitCommaRun(t, k + 1, e); }
  }

  /**
   * A figure on its own line, optionally preceded by the currency's optional
   * sign (for a currency with no required prefix), is captured as its digits
   * and commas.
   */
  lemma MatchDigits(optional: Option<char>, v: string, d: string, r: string)
    requires d != [] && forall i :: 0 <= i < |d| ==> IsDigitOrComma(d[i])
    requires optional.Some? ==> !IsSpace(optional.value) && !IsDigitOrComma(optional.value)
    requires v == d || (optional.Some? && v == [optional.value] + d)
    requires r == [] || r[0] == '\n'
    ensures MatchAfterLabel(" " + v + r, Digits("", optional)) == Some(d)
  {
    var t := " " + v + r;
    var k1 := |t| - |d| - |r|;
    assert SkipSpace(t, 1) == 1;
    assert t[1..1] == "";
    assert t[1] == v[0];
    assert MarkerEnd(t, 1, "", optional) == Some(k1) by {
      assert PrefixFolded(t[1..], "");
      if v == d {
        assert IsDigitOrComma(t[1]);
        assert optional.Some? ==> RegExpCanon(t[1]) != RegExpCanon(optional.value);
      }
    }
    assert SkipSpace(t, k1) == k1;
    assert DigitCommaEnd(t, k1 + |d|) == k1 + |d|;
    DigitCommaRun(t, k1, k1 + |d|);
    assert t[k1..k1 + |d|] == d;
  }

  /** A text that starts with neither white space nor a digit, comma or the optional sign is no figure. */
  lemma MatchDigitsReject(optional: Option<char>, v: string, r: string)
    requires v != [] && !IsSpace(v[0]) && !IsDigitOrComma(v[0])
    requires optional.Some? ==> RegExpCanon(v[0]) != RegExpCanon(optional.value)
    ensures MatchAfterLabel(" " + v + r, Digits("", optional)).None?
  {
    var t := " " + v + r;
    assert SkipSpace(t, 1) == 1;
    assert t[1..1] == "";
  }

  /** A plain value on the last line is captured whole by the description pattern, trimmed. */
  lemma MatchBlockLast(v: string)
    requires Plain(v) && v != [] && !IsSpace(v[0])
    ensures MatchAfterLabel(" " + v, Block) == Some(Trim(v))
  {
    var t := " " + v;
    assert SkipSpace(t, 1) == 1;
    assert forall m :: 0 <= m < |t| ==> t[m] != '\n' by {
      forall m | 0 <= m < |t| ensures t[m] != '\n' {
        if m > 0 { assert t[m] == v[m - 1]; }
      }
    }
    BlockEndRun(t, 2);
    assert SkipSpace(t, 0) == 1;
    assert t[1..|t|] == v;
  }

  /** Without a newline, `\n\n` is never found. */
  lemma {:induction false} BlockEndRun(t: string, k: nat)
    requires k <= |t|
    requires forall m :: 0 <= m < |t| ==> t[m] != '\n'
    ensures BlockEnd(t, k) == |t|
    decreases |t| - k
  {
    if k < |t| { BlockEndRun(t, k + 1); }
  }

  /**
   * A telephone number on its own line, followed by nothing or by a line
   * that does not start with a telephone character, is captured trimmed.
   */
  lemma MatchPhone(v: string, r: string)
    requires v != [] && forall i :: 0 <= i < |v| ==> IsPhoneChar(v[i]) && !IsLineTerminator(v[i])
    requires r == [] || (|r| >= 2 && r[0] == '\n' && !IsPhoneChar(r[1]))
    ensures MatchAfterLabel(" " + v + r, Phone) == Some(Trim(v))
  {
    var t := " " + v + r;
    var e := 1 + |v|;
    var stop := if r == [] then e else e + 1;
    assert PhoneEnd(t, stop) == stop;
    PhoneRun(t, 0, stop);
    assert LastLineBreak(t, stop) == e;
    assert t[..e] == " " + v;
    TrimSpaceCons(v);
  }

  /** `PhoneEnd` runs over telephone characters. */
  lemma {:induction false} PhoneRun(t: string, k: nat, e: nat)
    requires k <= e <= |t|
    requires forall m :: k <= m < e ==> IsPhoneChar(t[m])
    ensures PhoneEnd(t, k) == PhoneEnd(t, e)
    decreases e - k
  {
    if k < e { PhoneRun(t, k + 1, e); }
  }

  /** A leading space does not change the trim. */
  lemma TrimSpaceCons(v: string)
    ensures Trim(" " + v) == Trim(v)
  {
    var s := " " + v;
    var lo := SkipSpace(v, 0);
    var hi := TrimmedEnd(v, lo, |v|);
    TrimBounds(s);
    TrimBounds(v);
    SkipSpaceShift(v, 0);
    assert SkipSpace(s, 0) == lo + 1 by {
      assert IsSpace(s[0]);
    }
    TrimmedEndShift(v, lo, |v|);
    assert TrimmedEnd(s, lo + 1, |s|) == hi + 1;
    SliceShift(v, lo, hi);
  }

  /** `Trim` cuts at the first and after the last character that is not white space. */
  lemma TrimBounds(s: string)
    ensures Trim(s) == s[SkipSpace(s, 0)..TrimmedEnd(s, SkipSpace(s, 0), |s|)]
  {
  }

  lemma SliceShift(v: string, lo: nat, hi: nat)
    requires lo <= hi <= |v|
    ensures (" " + v)[lo + 1..hi + 1] == v[lo..hi]
  {
  }

  lemma {:induction false} SkipSpaceShift(v: string, i: nat)
    requires i <= |v|
    ensures SkipSpace(" " + v, i + 1) == 1 + SkipSpace(v, i)
    decreases |v| - i
  {
    if i < |v| && IsSpace(v[i]) { SkipSpaceShift(v, i + 1); }
  }

  lemma {:induction false} TrimmedEndShift(v: string, lo: nat, hi: nat)
    requires lo <= hi <= |v|
    ensures TrimmedEnd(" " + v, lo + 1, hi + 1) == 1 + TrimmedEnd(v, lo, hi)
    decreases hi
  {
    if hi > lo && IsSpace(v[hi - 1]) { TrimmedEndShift(v, lo, hi - 1); }
  }
}
