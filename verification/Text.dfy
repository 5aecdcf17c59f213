/** What the string routines of 1-GeneralKnowlegde/strutils.c are meant to compute, on values. */
module Text {

  const NUL: char := '\0'
  const TWO31: int := 0x8000_0000
  const TWO32: int := 0x1_0000_0000
  const INT32_MAX: int := 0x7FFF_FFFF

  // ----- Reversal -----

  /** The index of the first NUL, or the length when there is none. */
  function FirstNul(s: seq<char>): (k: nat)
    ensures k <= |s| && (k < |s| ==> s[k] == NUL)
    ensures forall i | 0 <= i < k :: s[i] != NUL
  {
    if s == [] || s[0] == NUL then 0 else 1 + FirstNul(s[1..])
  }

  function Reversed(s: seq<char>): (r: seq<char>)
    ensures |r| == |s|
  {
    seq(|s|, i requires 0 <= i < |s| => s[|s| - 1 - i])
  }

  /** How much of a buffer str_reverse works on; without a NUL it leaves the last character out. */
  function Tail(s: seq<char>): nat
    requires s != []
  {
    if FirstNul(s) < |s| then FirstNul(s) else |s| - 1
  }

  function ReverseText(s: seq<char>): seq<char>
    requires s != []
  {
    Reversed(s[..Tail(s)]) + s[Tail(s)..]
  }

  lemma FirstNulIs(s: seq<char>, k: nat)
    requires k <= |s| && (k < |s| ==> s[k] == NUL) && forall i | 0 <= i < k :: s[i] != NUL
    ensures FirstNul(s) == k
  {
  }

  lemma ReverseKeepsTail(s: seq<char>)
    requires s != []
    ensures Tail(ReverseText(s)) == Tail(s)
  {
    var t, r := Tail(s), ReverseText(s);
    forall i | 0 <= i < t ensures r[i] != NUL {
      assert r[i] == s[t - 1 - i];
    }
    assert r[t] == s[t];
    FirstNulIs(r, FirstNul(s));
  }

  /** Reversing twice gives back the buffer. */
  lemma ReverseTwice(s: seq<char>)
    requires s != []
    ensures ReverseText(ReverseText(s)) == s
  {
    ReverseKeepsTail(s);
    var t, r := Tail(s), ReverseText(s);
    assert r[..t] == Reversed(s[..t]) && r[t..] == s[t..];
    assert Reversed(r[..t]) == s[..t];
    assert s == s[..t] + s[t..];
  }

  /** The part of a buffer that gets reversed has t characters: up to the first NUL, or all but the last
      character. */
  predicate EndsAt(s: seq<char>, t: nat) {
    t < |s| && (forall i | 0 <= i < t :: s[i] != '\0') && (s[t] == '\0' || t == |s| - 1)
  }

  /** Every buffer has such a part; its characters come out in the opposite order, and nothing else
      changes. */
  lemma ReverseAt(s: seq<char>, t: nat)
    requires EndsAt(s, t)
    ensures |ReverseText(s)| == |s|
    ensures forall i | 0 <= i < |s| :: ReverseText(s)[i] == if i < t then s[t - 1 - i] else s[i]
  {
    if s[t] == NUL {
      FirstNulIs(s, t);
    } else {
      FirstNulIs(s, |s|);
    }
  }

  lemma EndsSomewhere(s: seq<char>) returns (t: nat)
    requires s != []
    ensures EndsAt(s, t)
  {
    t := Tail(s);
  }

  // ----- Trimming -----

  function Spaces(n: nat): seq<char> {
    seq(n, _ => ' ')
  }

  /** How many spaces s starts with. */
  function Lead(s: seq<char>): (k: nat)
    ensures k <= |s| && (k < |s| ==> s[k] != ' ')
    ensures forall i | 0 <= i < k :: s[i] == ' '
  {
    if s == [] || s[0] != ' ' then 0 else 1 + Lead(s[1..])
  }

  lemma LeadIs(s: seq<char>, k: nat)
    requires k <= |s| && (k < |s| ==> s[k] != ' ') && forall i | 0 <= i < k :: s[i] == ' '
    ensures Lead(s) == k
  {
  }

  /** s without the spaces at either end. */
  function Trim(s: seq<char>): (t: seq<char>)
    ensures |t| <= |s|
  {
    if s == [] then []
    else if s[0] == ' ' then Trim(s[1..])
    else if s[|s| - 1] == ' ' then Trim(s[..|s| - 1])
    else s
  }

  predicate NoOuterSpaces(t: seq<char>) {
    t == [] || (t[0] != ' ' && t[|t| - 1] != ' ')
  }

  /** Trim(s) is the one text without outer spaces that s consists of, between spaces. */
  lemma {:induction false} TrimIs(s: seq<char>, a: nat, t: seq<char>, b: nat)
    requires s == Spaces(a) + t + Spaces(b) && NoOuterSpaces(t)
    ensures Trim(s) == t
    decreases a + b
  {
    if a > 0 {
      assert s[0] == ' ' && s[1..] == Spaces(a - 1) + t + Spaces(b);
      TrimIs(s[1..], a - 1, t, b);
    } else if t == [] {
      if b > 0 {
        assert s == Spaces(b) + t + Spaces(0);
        assert s[0] == ' ' && s[1..] == Spaces(b - 1) + t + Spaces(0);
        TrimIs(s[1..], b - 1, t, 0);
      }
    } else if b > 0 {
      assert s[0] == t[0] && s[|s| - 1] == ' ' && s[..|s| - 1] == Spaces(0) + t + Spaces(b - 1);
      TrimIs(s[..|s| - 1], 0, t, b - 1);
    } else {
      assert s == t;
    }
  }

  lemma {:induction false} TrimFits(s: seq<char>)
    ensures |Trim(s)| + Lead(s) <= |s|
    ensures NoOuterSpaces(Trim(s))
  {
    if s != [] {
      if s[0] == ' ' {
        TrimFits(s[1..]);
      } else if s[|s| - 1] == ' ' {
        TrimFits(s[..|s| - 1]);
      }
    }
  }

  /** The trimmed text, filled up with NULs to the old length. */
  function Padded(s: seq<char>): (r: seq<char>)
    ensures |r| == |s|
  {
    Trim(s) + seq(|s| - |Trim(s)|, _ => NUL)
  }

  /** The slot str_trim has copied its i-th character from when its 32-bit source index starts over
      after period characters. */
  function Source(i: nat, period: nat): (j: nat)
    requires period > 0
    ensures j <= i && j < period
  {
    if i < period then i else Source(i - period, period)
  }

  /** What str_trim leaves in the buffer: what it has put at the start comes again wherever the source
      index has started over, after 2^32 - Lead(s) characters. */
  function TrimResult(s: seq<char>): (r: seq<char>)
    requires |s| < TWO32
    ensures |r| == |s|
  {
    seq(|s|, i requires 0 <= i < |s| => Padded(s)[Source(i, TWO32 - Lead(s))])
  }

  /** The source index can start over, and what would then be copied again is not all NUL. */
  predicate StartsOver(s: seq<char>) {
    exists j | 0 <= j < |s| :: j < |s| + Lead(s) - TWO32 && Padded(s)[j] != NUL
  }

  lemma {:induction false} SourceBelow(i: nat, period: nat, over: nat)
    requires 0 < period <= i < period + over
    ensures Source(i, period) < over
  {
    if i - period >= period {
      SourceBelow(i - period, period, over);
    }
  }

  lemma ResultAt(s: seq<char>, i: nat)
    requires i < |s| < TWO32
    ensures TrimResult(s)[i] == Padded(s)[Source(i, TWO32 - Lead(s))]
    ensures i < TWO32 - Lead(s) ==> TrimResult(s)[i] == Padded(s)[i]
  {
  }

  /** str_trim is right exactly when its source index does not start over on anything but NULs. */
  lemma TrimIsRightIff(s: seq<char>)
    requires |s| < TWO32
    ensures TrimResult(s) == Padded(s) <==> !StartsOver(s)
  {
    TrimFits(s);
    var period := TWO32 - Lead(s);
    if j :| 0 <= j < |s| && j < |s| - period && Padded(s)[j] != NUL {
      assert j < |Trim(s)| && Source(j + period, period) == Source(j, period) == j;
      assert TrimResult(s)[j + period] == Padded(s)[j] != Padded(s)[j + period];
    } else {
      forall i | 0 <= i < |s| ensures TrimResult(s)[i] == Padded(s)[i] {
        ResultAt(s, i);
        if i >= period {
          SourceBelow(i, period, |s| - period);
          var j := Source(i, period);
          assert 0 <= j < |s| && j < |s| + Lead(s) - TWO32 && Padded(s)[j] == NUL;
          assert i >= |Trim(s)| && Padded(s)[i] == NUL;
        }
      }
    }
  }

  /** Buffers of at most 2^31 characters are always trimmed right. */
  lemma TrimIsRight(s: seq<char>)
    requires |s| <= TWO31
    ensures TrimResult(s) == Padded(s)
  {
    TrimIsRightIff(s);
  }

  lemma LeadOfSpaces(n: nat, c: char)
    requires c != ' '
    ensures Lead(Spaces(n) + [c]) == n
  {
    LeadIs(Spaces(n) + [c], n);
  }

  /** It can go wrong: a letter after 2^31 spaces is found twice in the result. */
  lemma TrimGoesWrong()
    ensures var s := Spaces(TWO31) + ['x'];
            |s| == TWO31 + 1 && TrimResult(s) != Padded(s)
  {
    var s := Spaces(TWO31) + ['x'];
    LeadOfSpaces(TWO31, 'x');
    assert s == Spaces(TWO31) + ['x'] + Spaces(0);
    TrimIs(s, TWO31, ['x'], 0);
    TrimIsRightIff(s);
    assert Padded(s)[0] == 'x';
  }

  /** Trimming a trimmed buffer changes nothing. */
  lemma PaddedTwice(s: seq<char>)
    ensures Padded(Padded(s)) == Padded(s)
  {
    TrimFits(s);
    var p := Padded(s);
    assert p == Spaces(0) + p + Spaces(0);
    TrimIs(p, 0, p, 0);
  }

  /** s has its first and last character other than a space at first and last. */
  ghost predicate TextBetween(s: seq<char>, first: nat, last: nat) {
    && first <= last < |s| && s[first] != ' ' && s[last] != ' '
    && (forall i | 0 <= i < first || last < i < |s| :: s[i] == ' ')
  }

  predicate OnlySpaces(s: seq<char>) {
    forall i | 0 <= i < |s| :: s[i] == ' '
  }

  /** Trimming moves the text to the front and fills up with NULs, character by character. */
  lemma PaddedAt(s: seq<char>, first: nat, last: nat)
    requires TextBetween(s, first, last)
    ensures forall i | 0 <= i < |s| :: Padded(s)[i] == if i <= last - first then s[first + i] else '\0'
  {
    var t := s[first..last + 1];
    assert t[0] == s[first] && t[|t| - 1] == s[last];
    assert s == Spaces(first) + t + Spaces(|s| - last - 1);
    TrimIs(s, first, t, |s| - last - 1);
  }

  /** A buffer of spaces becomes one of NULs. */
  lemma PaddedSpaces(s: seq<char>)
    requires OnlySpaces(s)
    ensures forall i | 0 <= i < |s| :: Padded(s)[i] == '\0'
  {
    assert s == Spaces(|s|) + [] + Spaces(0);
    TrimIs(s, |s|, [], 0);
  }

  /** Trim, then reverse: the trimmed text reversed, if it ends at a NUL and contains none. */
  lemma TrimThenReverse(s: seq<char>)
    requires s != [] && |Trim(s)| < |s|
    requires forall i | 0 <= i < |Trim(s)| :: Trim(s)[i] != NUL
    ensures ReverseText(Padded(s)) == Reversed(Trim(s)) + seq(|s| - |Trim(s)|, _ => NUL)
    ensures forall i | 0 <= i < |s| ::
              ReverseText(Padded(s))[i] == if i < |Trim(s)| then Trim(s)[|Trim(s)| - 1 - i] else '\0'
  {
    var t, p := Trim(s), Padded(s);
    FirstNulIs(p, |t|);
    assert p[..|t|] == t;
  }

  // ----- Decimal numbers -----

  predicate IsDigit(ch: char) {
    '0' <= ch <= '9'
  }

  predicate AllDigits(s: seq<char>) {
    forall i | 0 <= i < |s| :: IsDigit(s[i])
  }

  function Digit(ch: char): nat
    requires IsDigit(ch)
  {
    ch as nat - '0' as nat
  }

  /** The number a string of digits denotes. */
  function Value(s: seq<char>): nat
    requires AllDigits(s)
  {
    if s == [] then 0 else 10 * Value(s[..|s| - 1]) + Digit(s[|s| - 1])
  }

  lemma DigitsAre(i: nat)
    requires i < 10
    ensures IsDigit("0123456789"[i]) && Digit("0123456789"[i]) == i
  {
  }

  function Power10(n: nat): nat {
    if n == 0 then 1 else 10 * Power10(n - 1)
  }

  lemma ValueSnoc(s: seq<char>, ch: char)
    requires AllDigits(s) && IsDigit(ch)
    ensures AllDigits(s + [ch]) && Value(s + [ch]) == 10 * Value(s) + Digit(ch)
  {
    assert (s + [ch])[..|s|] == s;
  }

  /** A string of digits is read as a decimal number, leading zeros and all. */
  lemma {:induction false} ValueOfBoth(high: seq<char>, low: seq<char>)
    requires AllDigits(high) && AllDigits(low)
    ensures AllDigits(high + low) && Value(high + low) == Value(high) * Power10(|low|) + Value(low)
  {
    if low == [] {
      assert high + low == high;
    } else {
      var n := |low| - 1;
      ValueOfBoth(high, low[..n]);
      ValueSnoc(high + low[..n], low[n]);
      assert high + low == high + low[..n] + [low[n]];
      TenTimes(Value(high), Power10(n), Value(low[..n]));
    }
  }

  lemma TenTimes(x: nat, y: nat, z: nat)
    ensures 10 * (x * y + z) == x * (10 * y) + 10 * z
  {
  }

  /** The signed 32-bit number congruent to n modulo 2^32. */
  function ToInt32(n: int): (r: int)
    ensures -TWO31 <= r < TWO31 && (r - n) % TWO32 == 0
  {
    var u := n % TWO32;
    if u < TWO31 then u else u - TWO32
  }

  predicate IsNegative(s: seq<char>) {
    s != [] && s[0] == '-'
  }

  /** The characters between the sign and the end of the string. */
  function Body(s: seq<char>): seq<char> {
    var rest := if IsNegative(s) then s[1..] else s;
    rest[..FirstNul(rest)]
  }

  /** The number a buffer denotes, of any size. */
  function Signed(s: seq<char>): int
    requires AllDigits(Body(s))
  {
    if IsNegative(s) then 0 - Value(Body(s)) else Value(Body(s))
  }

  /** What str_to_int returns for a buffer that is not empty. */
  function Parsed(s: seq<char>): int {
    if AllDigits(Body(s)) then ToInt32(Signed(s)) else INT32_MAX
  }

  lemma ToInt32Iff(n: int, r: int)
    requires -TWO31 <= r < TWO31
    ensures ToInt32(n) == r <==> (n - r) % TWO32 == 0
  {
    assert TWO31 == 0x8000_0000 && TWO32 == 0x1_0000_0000;
  }

  /** The result is the number denoted exactly when that is a signed 32-bit number. */
  lemma ParsedIsExactIff(s: seq<char>)
    requires AllDigits(Body(s))
    ensures Parsed(s) == Signed(s) <==> -TWO31 <= Signed(s) < TWO31
  {
    if -TWO31 <= Signed(s) < TWO31 {
      ToInt32Iff(Signed(s), Signed(s));
    }
  }

  /** The result INT32_MAX means a character that is not a digit, or a number that is INT32_MAX but for
      a multiple of 2^32. */
  lemma ParsedMaxIff(s: seq<char>)
    ensures Parsed(s) == INT32_MAX <==> !AllDigits(Body(s)) || (Signed(s) - INT32_MAX) % TWO32 == 0
  {
    if AllDigits(Body(s)) {
      ToInt32Iff(Signed(s), INT32_MAX);
    }
  }

  /** Before the end of the text, at i, there is a character that is neither a digit nor a sign in front. */
  predicate InvalidAt(s: seq<char>, i: nat) {
    i < |s| && (forall j | 0 <= j <= i :: s[j] != '\0') && (s[i] < '0' || s[i] > '9') && (i > 0 || s[i] != '-')
  }

  lemma BodyAt(s: seq<char>)
    ensures var b, k := Body(s), if IsNegative(s) then 1 else 0;
            && |b| + k <= |s| && (forall i | 0 <= i < |b| :: b[i] == s[i + k] && b[i] != NUL)
            && (|b| + k < |s| ==> s[|b| + k] == NUL)
  {
  }

  lemma InvalidIsSeen(s: seq<char>, i: nat)
    requires InvalidAt(s, i)
    ensures !AllDigits(Body(s))
  {
    BodyAt(s);
    var k := if IsNegative(s) then 1 else 0;
    assert i - k < |Body(s)|;
    assert Body(s)[i - k] == s[i];
  }

  /** The body is all digits exactly if there is no invalid character before the end of the text. */
  lemma InvalidIff(s: seq<char>)
    ensures (exists i: nat :: InvalidAt(s, i)) <==> !AllDigits(Body(s))
    ensures (exists i: nat :: InvalidAt(s, i)) ==> Parsed(s) == 0x7FFF_FFFF
  {
    if i: nat :| InvalidAt(s, i) {
      InvalidIsSeen(s, i);
    } else if !AllDigits(Body(s)) {
      BodyAt(s);
      var j :| 0 <= j < |Body(s)| && !IsDigit(Body(s)[j]);
      var k := if IsNegative(s) then 1 else 0;
      assert s[j + k] == Body(s)[j];
      forall l | 0 <= l <= j + k ensures s[l] != '\0' {
        assert l >= k ==> s[l] == Body(s)[l - k];
      }
      assert InvalidAt(s, j + k);
    }
  }

  /** The result -1 always means a number, which is -1 but for a multiple of 2^32. */
  lemma ParsedMinusOneIff(s: seq<char>)
    ensures Parsed(s) == -1 <==> AllDigits(Body(s)) && (Signed(s) + 1) % TWO32 == 0
  {
    if AllDigits(Body(s)) {
      ToInt32Iff(Signed(s), -1);
    }
  }

  /** The decimal notation of a number. */
  function Decimal(n: nat): seq<char> {
    var last := ('0' as int + n % 10) as char;
    if n < 10 then [last] else Decimal(n / 10) + [last]
  }

  function Printed(n: int): seq<char> {
    if n < 0 then ['-'] + Decimal(-n) else Decimal(n)
  }

  lemma {:induction false} DecimalValue(n: nat)
    ensures Decimal(n) != [] && AllDigits(Decimal(n)) && Value(Decimal(n)) == n
  {
    var d := Decimal(n);
    if n >= 10 {
      DecimalValue(n / 10);
      assert d[..|d| - 1] == Decimal(n / 10);
    } else {
      assert d[..0] == [];
    }
  }

  /** Parsing the decimal notation of any 32-bit number gives the number, the smallest included,
      whether it fills the buffer or ends at a NUL with anything behind it. */
  lemma ParsePrinted(n: int, behind: seq<char>)
    requires -TWO31 <= n < TWO31 && (behind == [] || behind[0] == NUL)
    ensures Parsed(Printed(n) + behind) == n
  {
    var size: nat := if n < 0 then -n else n;
    DecimalValue(size);
    BodyIs(n < 0, Decimal(size), behind);
    ParsedIsExactIff(Printed(n) + behind);
  }

  lemma DigitsOfMax()
    ensures Decimal(INT32_MAX) == "2147483647"
  {
    assert Decimal(21) == "21";
    assert Decimal(2147) == "2147";
    assert Decimal(214748) == "214748";
    assert Decimal(21474836) == "21474836";
  }

  /** The test for INT32_MAX does go wrong: a valid text is reported as an error. */
  lemma MaxTestGoesWrong()
    ensures AllDigits(Body("2147483647")) && Signed("2147483647") == INT32_MAX
    ensures Parsed("2147483647") == INT32_MAX
  {
    DigitsOfMax();
    DecimalValue(INT32_MAX);
    BodyIs(false, Decimal(INT32_MAX), []);
    assert Decimal(INT32_MAX) + [] == Decimal(INT32_MAX);
    ParsedMaxIff("2147483647");
  }

  lemma BodyIs(negative: bool, digits: seq<char>, behind: seq<char>)
    requires AllDigits(digits) && digits != [] && (behind == [] || behind[0] == NUL)
    ensures var s := (if negative then ['-'] + digits else digits) + behind;
            IsNegative(s) == negative && Body(s) == digits
  {
    var s := (if negative then ['-'] + digits else digits) + behind;
    var rest := if negative then s[1..] else s;
    assert rest == digits + behind;
    assert !negative ==> s[0] == digits[0] && IsDigit(s[0]);
    FirstNulIs(rest, |digits|);
    assert rest[..|digits|] == digits;
  }
}
