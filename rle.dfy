/**
 * Run-length masks of the HuBMAP example: the token step of `readRLE`, which keeps the digits
 * of each space-separated token and parses them as a decimal integer, and `rle2Mask`, which
 * paints the runs (start, length) into a zeroed byte buffer of width * height pixels and lays
 * the buffer out as a [width, height] array transposed to an image of height rows.
 */
module Rle {
  import opened Wrappers

  /** `uint8`. */
  newtype byte = x: int | 0 <= x < 256

  const MaxInt64: int := 0x7fff_ffff_ffff_ffff

  /** Why `strconv.Atoi` refused its text: not an integer, or not one that fits in 64 bits. */
  datatype NumError = ErrSyntax(num: string) | ErrRange(num: string)

  predicate IsDigit(c: char) {
    '0' <= c <= '9'
  }

  predicate AllDigits(s: string) {
    forall k :: 0 <= k < |s| ==> IsDigit(s[k])
  }

  /** The matches of `[0-9]` in s, joined: its digit characters in order. */
  function Digits(s: string): (d: string)
    ensures AllDigits(d) && |d| <= |s|
  {
    if |s| == 0 then "" else Digits(s[..|s| - 1]) + (if IsDigit(s[|s| - 1]) then [s[|s| - 1]] else "")
  }

  /** Text made only of digits is kept whole. */
  lemma {:induction false} DigitsOfDigits(s: string)
    requires AllDigits(s)
    ensures Digits(s) == s
  {
    if |s| > 0 {
      DigitsOfDigits(s[..|s| - 1]);
      assert s == s[..|s| - 1] + [s[|s| - 1]];
    }
  }

  /** Nothing is kept exactly when s has no digit. */
  lemma {:induction false} DigitsEmpty(s: string)
    ensures Digits(s) == "" <==> forall k :: 0 <= k < |s| ==> !IsDigit(s[k])
  {
    if |s| > 0 {
      DigitsEmpty(s[..|s| - 1]);
      assert forall k :: 0 <= k < |s| - 1 ==> s[..|s| - 1][k] == s[k];
    }
  }

  function DigitValue(c: char): nat
    requires IsDigit(c)
  {
    (c as int) - ('0' as int)
  }

  function DigitChar(n: nat): (c: char)
    requires n < 10
    ensures IsDigit(c) && DigitValue(c) == n
  {
    ('0' as int + n) as char
  }

  /** The value of a decimal numeral, most significant digit first. */
  function Decimal(d: string): nat
    requires AllDigits(d)
  {
    if |d| == 0 then 0 else Decimal(d[..|d| - 1]) * 10 + DigitValue(d[|d| - 1])
  }

  /** The decimal numeral of n, with no leading zero. */
  function Show(n: nat): (d: string)
    ensures AllDigits(d) && |d| >= 1
  {
    if n < 10 then [DigitChar(n)] else Show(n / 10) + [DigitChar(n % 10)]
  }

  lemma {:induction false} DecimalShow(n: nat)
    ensures Decimal(Show(n)) == n
  {
    if n >= 10 {
      DecimalShow(n / 10);
      var d := Show(n);
      assert d[..|d| - 1] == Show(n / 10);
    }
  }

  /**
   * `strconv.Atoi` on 64-bit `int`: an optional sign, then at least one digit and nothing
   * else; a magnitude beyond the 64-bit range is a range error.
   */
  function Atoi(s: string): (r: Result<int, NumError>)
    ensures r.Ok? ==> -MaxInt64 - 1 <= r.value <= MaxInt64
  {
    var neg := |s| > 0 && s[0] == '-';
    var body := if |s| > 0 && (s[0] == '-' || s[0] == '+') then s[1..] else s;
    if |body| == 0 || !AllDigits(body) then Err(ErrSyntax(s))
    else if neg && Decimal(body) > MaxInt64 + 1 then Err(ErrRange(s))
    else if !neg && Decimal(body) > MaxInt64 then Err(ErrRange(s))
    else if neg then Ok(-(Decimal(body) as int))
    else Ok(Decimal(body))
  }

  /** Atoi inverts Show on the values that fit. */
  lemma AtoiShow(n: nat)
    requires n <= MaxInt64
    ensures Atoi(Show(n)) == Ok(n)
  {
    DecimalShow(n);
  }

  /** On digit-only text, Atoi succeeds exactly when there is a digit and the value fits. */
  lemma AtoiOfDigits(d: string)
    requires AllDigits(d)
    ensures Atoi(d).Ok? <==> |d| >= 1 && Decimal(d) <= MaxInt64
    ensures Atoi(d).Ok? ==> Atoi(d).value == Decimal(d)
  {
    if |d| > 0 {
      assert IsDigit(d[0]);
    }
  }

  /**
   * Lines 33-34: one token's digits, parsed. The digits carry no sign, so this is Atoi's digit
   * case written out (TokenValueIsAtoi).
   */
  function TokenValue(tok: string): Result<int, NumError> {
    var d := Digits(tok);
    if |d| == 0 then Err(ErrSyntax(d))
    else if Decimal(d) > MaxInt64 then Err(ErrRange(d))
    else Ok(Decimal(d))
  }

  /** The token step is `strconv.Atoi` applied to the token's digits. */
  lemma TokenValueIsAtoi(tok: string)
    ensures TokenValue(tok) == Atoi(Digits(tok))
  {
    var d := Digits(tok);
    if |d| > 0 {
      assert IsDigit(d[0]);
    }
  }

  /**
   * A token is read exactly when it holds a digit and its digits fit in 64 bits; the value is
   * that of its digits in order, whatever else the token holds.
   */
  lemma TokenValueSpec(tok: string)
    ensures TokenValue(tok).Ok? <==> (exists k :: 0 <= k < |tok| && IsDigit(tok[k])) && Decimal(Digits(tok)) <= MaxInt64
    ensures TokenValue(tok).Ok? ==> TokenValue(tok).value == Decimal(Digits(tok))
  {
    DigitsEmpty(tok);
  }

  /** The values of the tokens, in order, or the error of the first token that fails. */
  function Values(tokens: seq<string>): Result<seq<int>, NumError> {
    if |tokens| == 0 then Ok([])
    else
      var init :- Values(tokens[..|tokens| - 1]);
      var v :- TokenValue(tokens[|tokens| - 1]);
      Ok(init + [v])
  }

  /** The tokens are read exactly when each of them is, and then value k is token k's. */
  lemma {:induction false} ValuesSpec(tokens: seq<string>)
    ensures Values(tokens).Ok? <==> forall k :: 0 <= k < |tokens| ==> TokenValue(tokens[k]).Ok?
    ensures Values(tokens).Ok? ==>
              |Values(tokens).value| == |tokens|
              && forall k :: 0 <= k < |tokens| ==> Values(tokens).value[k] == TokenValue(tokens[k]).value
  {
    if |tokens| > 0 {
      var init := tokens[..|tokens| - 1];
      ValuesSpec(init);
      assert forall k :: 0 <= k < |init| ==> init[k] == tokens[k];
    }
  }

  /** Once a prefix of the tokens fails, so do the tokens, with the same error. */
  lemma {:induction false} ValuesPrefixErr(tokens: seq<string>, n: nat)
    requires n <= |tokens| && Values(tokens[..n]).Err?
    ensures Values(tokens) == Values(tokens[..n])
    decreases |tokens| - n
  {
    if n < |tokens| {
      assert tokens[..n + 1][..n] == tokens[..n];
      ValuesPrefixErr(tokens, n + 1);
    } else {
      assert tokens[..n] == tokens;
    }
  }

  /** Lines 31-40: the token loop, which returns the first error it meets. */
  method ParseTokens(tokens: seq<string>) returns (r: Result<seq<int>, NumError>)
    ensures r == Values(tokens)
  {
    var rle: seq<int> := [];
    var i := 0;
    while i < |tokens|
      invariant 0 <= i <= |tokens| && Values(tokens[..i]) == Ok(rle)
    {
      assert tokens[..i + 1][..i] == tokens[..i];
      var num := TokenValue(tokens[i]);
      if num.Err? {
        assert Values(tokens[..i + 1]).Err?;
        ValuesPrefixErr(tokens, i + 1);
        return Err(num.error);
      }
      rle := rle + [num.value];
      i := i + 1;
    }
    assert tokens[..i] == tokens;
    r := Ok(rle);
  }

  /** `strings.Split(s, string(sep))`: the pieces between separators; "" gives [""]. */
  function Split(s: string, sep: char): (parts: seq<string>)
    ensures |parts| >= 1
  {
    if |s| == 0 then [""]
    else
      var p := Split(s[..|s| - 1], sep);
      if s[|s| - 1] == sep then p + [""] else p[..|p| - 1] + [p[|p| - 1] + [s[|s| - 1]]]
  }

  /** `strings.Join(parts, string(sep))`. */
  function Join(parts: seq<string>, sep: char): string
    requires |parts| >= 1
  {
    if |parts| == 1 then parts[0] else Join(parts[..|parts| - 1], sep) + [sep] + parts[|parts| - 1]
  }

  /** Splitting loses nothing: joining the pieces gives s back. */
  lemma {:induction false} SplitJoin(s: string, sep: char)
    ensures Join(Split(s, sep), sep) == s
  {
    if |s| > 0 {
      var init, c := s[..|s| - 1], s[|s| - 1];
      SplitJoin(init, sep);
      assert s == init + [c];
      if c == sep {
        JoinNewPiece(Split(init, sep), sep);
      } else {
        JoinExtendPiece(Split(init, sep), sep, c);
      }
    }
  }

  /** Appending an empty piece appends a separator. */
  lemma JoinNewPiece(parts: seq<string>, sep: char)
    requires |parts| >= 1
    ensures Join(parts + [""], sep) == Join(parts, sep) + [sep]
  {
    assert (parts + [""])[..|parts|] == parts;
  }

  /** Extending the last piece by c extends the joined text by c. */
  lemma JoinExtendPiece(parts: seq<string>, sep: char, c: char)
    requires |parts| >= 1
    ensures Join(parts[..|parts| - 1] + [parts[|parts| - 1] + [c]], sep) == Join(parts, sep) + [c]
  {
    var q := parts[..|parts| - 1] + [parts[|parts| - 1] + [c]];
    assert q[..|q| - 1] == parts[..|parts| - 1];
  }

  /** No piece holds the separator. */
  lemma {:induction false} SplitNoSep(s: string, sep: char)
    ensures forall k, j :: 0 <= k < |Split(s, sep)| && 0 <= j < |Split(s, sep)[k]| ==> Split(s, sep)[k][j] != sep
  {
    if |s| > 0 {
      var init, c := s[..|s| - 1], s[|s| - 1];
      SplitNoSep(init, sep);
      var p := Split(init, sep);
      if c != sep {
        var q := p[..|p| - 1] + [p[|p| - 1] + [c]];
        assert forall k :: 0 <= k < |p| - 1 ==> q[k] == p[k];
        assert q[|p| - 1] == p[|p| - 1] + [c];
      } else {
        assert forall k :: 0 <= k < |p| ==> (p + [""])[k] == p[k];
      }
    }
  }

  /** `strings.Split` on spaces, then the token loop: what one record's encoding yields. */
  function Encoding(e: string): Result<seq<int>, NumError> {
    Values(Split(e, ' '))
  }

  /** One record's encoding: split on spaces, then the token loop. */
  method ParseEncoding(e: string) returns (r: Result<seq<int>, NumError>)
    ensures r == Encoding(e)
  {
    r := ParseTokens(Split(e, ' '));
  }

  /** Record k is the last one with its id among the first n. */
  predicate LastFor(records: seq<(string, string)>, k: nat, n: nat)
    requires k < n <= |records|
  {
    forall k' :: k < k' < n ==> records[k'].0 != records[k].0
  }

  /**
   * What lines 28-42 compute once the CSV is read, record by record: records pairs each id with
   * its encoding text; the first encoding that fails fails the read, and otherwise a later
   * record overwrites the entry of an earlier one with the same id.
   */
  ghost function Read(records: seq<(string, string)>): Result<map<string, seq<int>>, NumError>
    decreases |records|
  {
    if |records| == 0 then Ok(map[])
    else
      var m :- Read(records[..|records| - 1]);
      var v :- Encoding(records[|records| - 1].1);
      Ok(m[records[|records| - 1].0 := v])
  }

  /** Lines 28-42 after the CSV is read: the record loop, which stops at the first error. */
  method ReadRLE(records: seq<(string, string)>) returns (r: Result<map<string, seq<int>>, NumError>)
    ensures r == Read(records)
  {
    var rleMap: map<string, seq<int>> := map[];
    var idx := 0;
    while idx < |records|
      invariant 0 <= idx <= |records| && Read(records[..idx]) == Ok(rleMap)
    {
      assert records[..idx + 1][..idx] == records[..idx];
      var rle := ParseEncoding(records[idx].1);
      if rle.Err? {
        ReadPrefixErr(records, idx + 1);
        return Err(rle.error);
      }
      rleMap := rleMap[records[idx].0 := rle.value];
      idx := idx + 1;
    }
    assert records[..idx] == records;
    r := Ok(rleMap);
  }

  /** Once a prefix of the records fails, so does the read, with the same error. */
  lemma {:induction false} ReadPrefixErr(records: seq<(string, string)>, n: nat)
    requires n <= |records| && Read(records[..n]).Err?
    ensures Read(records) == Read(records[..n])
    decreases |records| - n
  {
    if n < |records| {
      assert records[..n + 1][..n] == records[..n];
      ReadPrefixErr(records, n + 1);
    } else {
      assert records[..n] == records;
    }
  }

  /** The read succeeds exactly when every record's encoding parses. */
  lemma {:induction false} ReadOk(records: seq<(string, string)>)
    ensures Read(records).Ok? <==> forall k :: 0 <= k < |records| ==> Encoding(records[k].1).Ok?
  {
    if |records| > 0 {
      var init := records[..|records| - 1];
      ReadOk(init);
      assert forall k :: 0 <= k < |init| ==> init[k] == records[k];
    }
  }

  /** A successful read holds exactly the records' ids. */
  lemma {:induction false} ReadKeys(records: seq<(string, string)>)
    requires Read(records).Ok?
    ensures Read(records).value.Keys == set k | 0 <= k < |records| :: records[k].0
  {
    if |records| > 0 {
      var init := records[..|records| - 1];
      ReadKeys(init);
      IdsSnoc(records);
    }
  }

  /** The ids of the records. */
  ghost function Ids(records: seq<(string, string)>): set<string> {
    set k | 0 <= k < |records| :: records[k].0
  }

  /** The ids of all the records are those of all but the last, and the last one's. */
  lemma IdsSnoc(records: seq<(string, string)>)
    requires |records| > 0
    ensures Ids(records) == Ids(records[..|records| - 1]) + {records[|records| - 1].0}
  {
    var init := records[..|records| - 1];
    var all := set k | 0 <= k < |records| :: records[k].0;
    var before := set k | 0 <= k < |init| :: init[k].0;
    forall id | id in all ensures id in before + {records[|records| - 1].0} {
      var k :| 0 <= k < |records| && records[k].0 == id;
      if k < |init| {
        assert init[k].0 == id;
      }
    }
    forall id | id in before ensures id in all {
      var k :| 0 <= k < |init| && init[k].0 == id;
      assert records[k].0 == id;
    }
  }

  /** In a successful read, the id of a record that no later record repeats holds its values. */
  lemma {:induction false} ReadLast(records: seq<(string, string)>, k: nat)
    requires k < |records| && Read(records).Ok? && LastFor(records, k, |records|)
    ensures Encoding(records[k].1).Ok?
    ensures records[k].0 in Read(records).value && Read(records).value[records[k].0] == Encoding(records[k].1).value
  {
    var init := records[..|records| - 1];
    if k < |records| - 1 {
      assert records[|records| - 1].0 != records[k].0;
      assert init[k] == records[k];
      assert LastFor(init, k, |init|) by {
        forall k' | k < k' < |init| ensures init[k'].0 != init[k].0 {
          assert init[k'] == records[k'];
        }
      }
      ReadLast(init, k);
    }
  }

  /** The list holds whole pairs: for an odd length line 67 reads past its end. */
  predicate EvenRuns(rle: seq<int>) {
    |rle| % 2 == 0
  }

  /**
   * Go's `int` addition, 64 bits wide: the sum wrapped into [-2^63, 2^63), equal to the exact
   * sum whenever that fits.
   */
  function AddInt(a: int, b: int): (r: int)
    ensures -MaxInt64 - 1 <= r <= MaxInt64
    ensures -MaxInt64 - 1 <= a + b <= MaxInt64 ==> r == a + b
    ensures (r - (a + b)) % (2 * (MaxInt64 + 1)) == 0
  {
    (a + b + MaxInt64 + 1) % (2 * (MaxInt64 + 1)) - MaxInt64 - 1
  }

  /** Pixel j lies in run k for some k: from rle[2k] up to the wrapped end rle[2k] + rle[2k+1]. */
  predicate InRun(rle: seq<int>, j: int) {
    exists k :: 0 <= k < |rle| / 2 && rle[2 * k] <= j < AddInt(rle[2 * k], rle[2 * k + 1])
  }

  /**
   * Every run the loop at lines 79-82 enters, one whose wrapped end lies after its start, lies
   * within the n pixels of the buffer; a run that does not enter it indexes nothing.
   */
  predicate RunsFit(rle: seq<int>, n: nat) {
    forall k :: 0 <= k < |rle| / 2 && rle[2 * k] < AddInt(rle[2 * k], rle[2 * k + 1]) ==>
      0 <= rle[2 * k] && AddInt(rle[2 * k], rle[2 * k + 1]) <= n
  }

  /**
   * A run ending past the largest `int` wraps to a negative end: the loop does not run, so the
   * run paints nothing and fits every buffer.
   */
  lemma WrappedRunPaintsNothing(n: nat, j: int)
    ensures AddInt(MaxInt64, 1) == -MaxInt64 - 1
    ensures RunsFit([MaxInt64, 1], n) && !InRun([MaxInt64, 1], j)
  {
    var rle := [MaxInt64, 1];
    assert AddInt(rle[2 * 0], rle[2 * 0 + 1]) == -MaxInt64 - 1;
  }

  /** Lines 65-68: the pairs (rle[0], rle[1]), (rle[2], rle[3]), ... */
  method Pairs(rle: seq<int>) returns (pairs: seq<(int, int)>)
    requires EvenRuns(rle)
    ensures |pairs| == |rle| / 2 && forall k :: 0 <= k < |pairs| ==> pairs[k] == (rle[2 * k], rle[2 * k + 1])
  {
    pairs := [];
    var i := 0;
    while i < |rle|
      invariant 0 <= i <= |rle| && i % 2 == 0 && |pairs| == i / 2
      invariant forall k :: 0 <= k < |pairs| ==> pairs[k] == (rle[2 * k], rle[2 * k + 1])
    {
      pairs := pairs + [(rle[i], rle[i + 1])];
      i := i + 2;
    }
  }

  /**
   * Lines 75-83: each pixel of each run is set to 255; the others keep their value. A pixel
   * ends at 255 when some run covers it, so assigning instead of adding makes the order of
   * the runs and repeated runs irrelevant.
   */
  method Paint(pixels: array<byte>, rle: seq<int>, pairs: seq<(int, int)>)
    requires EvenRuns(rle) && RunsFit(rle, pixels.Length)
    requires |pairs| == |rle| / 2 && forall k :: 0 <= k < |pairs| ==> pairs[k] == (rle[2 * k], rle[2 * k + 1])
    modifies pixels
    ensures forall j :: 0 <= j < pixels.Length ==> pixels[j] == if InRun(rle, j) then 255 else old(pixels[j])
  {
    var p := 0;
    while p < |pairs|
      invariant 0 <= p <= |pairs|
      invariant forall j :: 0 <= j < pixels.Length ==>
                  pixels[j] == if InRun(rle[..2 * p], j) then 255 else old(pixels[j])
    {
      var start := pairs[p].0;
      var end := AddInt(start, pairs[p].1);
      assert rle[..2 * (p + 1)][..2 * p] == rle[..2 * p];
      var i := start;
      while i < end
        invariant start <= i <= (if start < end then end else start)
        invariant forall j :: 0 <= j < pixels.Length ==>
                    pixels[j] == if InRun(rle[..2 * p], j) || start <= j < i then 255 else old(pixels[j])
      {
        assert 0 <= i < pixels.Length by {
          assert rle[2 * p] < AddInt(rle[2 * p], rle[2 * p + 1]);
        }
        pixels[i] := 255;
        i := i + 1;
      }
      forall j | 0 <= j < pixels.Length
        ensures InRun(rle[..2 * (p + 1)], j) <==> InRun(rle[..2 * p], j) || start <= j < end
      {
        InRunSnoc(rle, p, j);
      }
      p := p + 1;
    }
    assert rle[..2 * p] == rle;
  }

  /** Runs of the first p + 1 pairs cover j when the first p do or pair p does. */
  lemma InRunSnoc(rle: seq<int>, p: nat, j: int)
    requires EvenRuns(rle) && p < |rle| / 2
    ensures InRun(rle[..2 * (p + 1)], j) <==> InRun(rle[..2 * p], j) || rle[2 * p] <= j < AddInt(rle[2 * p], rle[2 * p + 1])
  {
    var a, b := rle[..2 * p], rle[..2 * (p + 1)];
    assert forall k :: 0 <= k < p ==> a[2 * k] == rle[2 * k] && a[2 * k + 1] == rle[2 * k + 1];
    assert forall k :: 0 <= k <= p ==> b[2 * k] == rle[2 * k] && b[2 * k + 1] == rle[2 * k + 1];
    if InRun(b, j) {
      var k :| 0 <= k < |b| / 2 && b[2 * k] <= j < AddInt(b[2 * k], b[2 * k + 1]);
      if k < p {
        assert a[2 * k] <= j < AddInt(a[2 * k], a[2 * k + 1]);
      }
    }
    if InRun(a, j) {
      var k :| 0 <= k < |a| / 2 && a[2 * k] <= j < AddInt(a[2 * k], a[2 * k + 1]);
      assert b[2 * k] <= j < AddInt(b[2 * k], b[2 * k + 1]);
    }
    if rle[2 * p] <= j < AddInt(rle[2 * p], rle[2 * p + 1]) {
      assert b[2 * p] <= j < AddInt(b[2 * p], b[2 * p + 1]);
    }
  }

  /**
   * `rle2Mask` without the file output: the buffer of width * height zeros, the runs painted,
   * and the [width, height] array transposed, so that image row r, column c is pixel
   * c * height + r: 255 when a run covers it, 0 otherwise.
   */
  method Rle2Mask(rle: seq<int>, width: nat, height: nat) returns (img: seq<seq<byte>>)
    requires EvenRuns(rle) && RunsFit(rle, width * height)
    ensures img == Mask(rle, width, height)
  {
    var pairs := Pairs(rle);
    var pixels := Zeroed(width * height);
    Paint(pixels, rle, pairs);
    assert pixels[..] == Painted(rle, width * height);
    img := Transposed(pixels[..], width, height);
  }

  /** Line 74: a fresh buffer of n zero bytes. */
  method Zeroed(n: nat) returns (pixels: array<byte>)
    ensures fresh(pixels) && pixels.Length == n && forall j :: 0 <= j < n ==> pixels[j] == 0
  {
    pixels := new byte[n];
    var i := 0;
    while i < n
      invariant 0 <= i <= n
      invariant forall j :: 0 <= j < i ==> pixels[j] == 0
    {
      pixels[i] := 0;
      i := i + 1;
    }
  }

  /** n pixels, 255 where a run covers them and 0 elsewhere. */
  function Painted(rle: seq<int>, n: nat): (pix: seq<byte>)
    ensures |pix| == n
  {
    seq(n, j requires 0 <= j < n => if InRun(rle, j) then 255 else 0)
  }

  /** The mask image: the painted [width, height] buffer, transposed. */
  function Mask(rle: seq<int>, width: nat, height: nat): seq<seq<byte>> {
    Transposed(Painted(rle, width * height), width, height)
  }

  /** The mask has height rows of width bytes. */
  lemma MaskShape(rle: seq<int>, width: nat, height: nat)
    ensures |Mask(rle, width, height)| == height
    ensures forall r :: 0 <= r < height ==> |Mask(rle, width, height)[r]| == width
  {
  }

  /** Row r, column c of the mask is 255 exactly when a run covers pixel c * height + r. */
  lemma MaskCell(rle: seq<int>, width: nat, height: nat, r: nat, c: nat)
    requires r < height && c < width
    ensures |Mask(rle, width, height)| == height && |Mask(rle, width, height)[r]| == width
    ensures Mask(rle, width, height)[r][c] == if InRun(rle, c * height + r) then 255 else 0
  {
    CellInRange(width, height, r, c);
  }

  /** Pixel i of the buffer is the mask's row i mod height, column i div height. */
  lemma MaskPixel(rle: seq<int>, width: nat, height: nat, i: nat)
    requires i < width * height
    ensures height > 0 && i % height < height && i / height < width
    ensures Mask(rle, width, height)[i % height][i / height] == if InRun(rle, i) then 255 else 0
  {
    Layout(width, height, i);
    MaskCell(rle, width, height, i % height, i / height);
  }

  /** Index c * height + r of a [width, height] buffer, for r < height and c < width, is in range. */
  lemma CellInRange(width: nat, height: nat, r: nat, c: nat)
    requires r < height && c < width
    ensures c * height + r < width * height
  {
    assert c * height + r < c * height + height == (c + 1) * height;
    assert (c + 1) * height <= width * height;
  }

  /** Cell (r, c) of the transposed [width, height] buffer. */
  function Cell(pix: seq<byte>, width: nat, height: nat, r: nat, c: nat): byte
    requires |pix| == width * height && r < height && c < width
  {
    CellInRange(width, height, r, c);
    pix[c * height + r]
  }

  /** Row r of the transposed [width, height] buffer: cells r, height + r, 2 * height + r, ... */
  function Row(pix: seq<byte>, width: nat, height: nat, r: nat): (row: seq<byte>)
    requires |pix| == width * height && r < height
    ensures |row| == width && forall c :: 0 <= c < width ==> row[c] == Cell(pix, width, height, r, c)
  {
    seq(width, c requires 0 <= c < width => Cell(pix, width, height, r, c))
  }

  /** `MustTranspose(0, 1)` of a [width, height] row-major buffer: row r holds cells c * height + r. */
  function Transposed(pix: seq<byte>, width: nat, height: nat): (img: seq<seq<byte>>)
    requires |pix| == width * height
    ensures |img| == height && forall r :: 0 <= r < height ==> img[r] == Row(pix, width, height, r)
  {
    seq(height, r requires 0 <= r < height => Row(pix, width, height, r))
  }

  /** Buffer index i lands at row i mod height, column i div height. */
  lemma Layout(width: nat, height: nat, i: nat)
    requires i < width * height
    ensures height > 0 && i % height < height && i / height < width && (i / height) * height + i % height == i
  {
  }

  /** Runs of a ++ b cover j exactly when runs of a or of b do. */
  lemma InRunAppend(a: seq<int>, b: seq<int>, j: int)
    requires EvenRuns(a) && EvenRuns(b)
    ensures InRun(a + b, j) <==> InRun(a, j) || InRun(b, j)
  {
    var ab, h := a + b, |a| / 2;
    if InRun(ab, j) {
      var k :| 0 <= k < |ab| / 2 && ab[2 * k] <= j < AddInt(ab[2 * k], ab[2 * k + 1]);
      if k < h {
        assert ab[2 * k] == a[2 * k] && ab[2 * k + 1] == a[2 * k + 1];
      } else {
        var k' := k - h;
        assert ab[2 * k] == b[2 * k'] && ab[2 * k + 1] == b[2 * k' + 1];
      }
    }
    if InRun(a, j) {
      var k :| 0 <= k < h && a[2 * k] <= j < AddInt(a[2 * k], a[2 * k + 1]);
      assert ab[2 * k] == a[2 * k] && ab[2 * k + 1] == a[2 * k + 1];
    }
    if InRun(b, j) {
      var k :| 0 <= k < |b| / 2 && b[2 * k] <= j < AddInt(b[2 * k], b[2 * k + 1]);
      assert ab[2 * (k + h)] == b[2 * k] && ab[2 * (k + h) + 1] == b[2 * k + 1];
    }
  }

  /** Swapping two groups of runs, or repeating one, leaves the mask unchanged. */
  lemma RunsOrderFree(a: seq<int>, b: seq<int>, j: int)
    requires EvenRuns(a) && EvenRuns(b)
    ensures InRun(a + b, j) <==> InRun(b + a, j)
    ensures InRun(a + a, j) <==> InRun(a, j)
  {
    InRunAppend(a, b, j);
    InRunAppend(b, a, j);
    InRunAppend(a, a, j);
  }
}
