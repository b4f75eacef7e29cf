/** Reading HTTP requests off a socket that delivers bytes in arbitrary pieces, against a parse of the
    whole byte stream at once. */
module HttpFraming {
  import opened Common

  type Bytes = seq<byte>

  const READ_SIZE: nat := 16 * 1024

  /** What one read delivers: a read of nothing is the end. */
  type Piece = b: Bytes | 0 < |b| <= READ_SIZE witness [0]

  const MAX_HEAD: nat := 64 * 1024
  const MAX_BODY: nat := 16 * 1024 * 1024

  /** Carriage return, line feed, twice. */
  const BLANK: Bytes := [13, 10, 13, 10]

  predicate BlankAt(b: Bytes, k: nat) { k + 4 <= |b| && b[k..k + 4] == BLANK }

  function FindFrom(b: Bytes, i: nat): (r: Option<nat>)
    ensures r.Some? ==> i <= r.value && BlankAt(b, r.value) && forall j: nat :: i <= j < r.value ==> !BlankAt(b, j)
    ensures r.None? ==> forall j: nat :: i <= j ==> !BlankAt(b, j)
    decreases |b| - i
  {
    if i + 4 > |b| then None else if BlankAt(b, i) then Some(i) else FindFrom(b, i + 1)
  }

  /** Where the first blank line begins. */
  function Find(b: Bytes): Option<nat> { FindFrom(b, 0) }

  lemma FindPrefix(p: Bytes, b: Bytes)
    requires p <= b
    ensures Find(p).Some? ==> Find(b) == Find(p)
    ensures Find(b).Some? ==> (Find(p) == Find(b) <==> Find(b).value + 4 <= |p|)
  {
    forall k: nat | k + 4 <= |p| ensures BlankAt(p, k) <==> BlankAt(b, k) {
      assert p[k..k + 4] == b[k..k + 4];
    }
  }

  /** The head ends at the first carriage return and line feed that come twice. */
  lemma FindMeans(b: Bytes, k: nat)
    ensures Find(b) == Some(k) <==> BlankLine(b, k) && forall j: nat :: j < k ==> !BlankLine(b, j)
  {
    forall j: nat ensures BlankAt(b, j) <==> BlankLine(b, j) {
      if j + 4 <= |b| {
        assert b[j..j + 4] == [b[j], b[j + 1], b[j + 2], b[j + 3]];
      }
    }
  }

  predicate BlankLine(b: Bytes, k: nat) {
    k + 3 < |b| && b[k] == b[k + 2] == 13 && b[k + 1] == b[k + 3] == 10
  }

  lemma FoundWithin(b: Bytes)
    requires Find(b).Some?
    ensures Find(b).value + 4 <= |b|
  {
  }

  // ---- the content length -----------------------------------------------------------------------------

  predicate Blank(c: byte) { c == 32 || 9 <= c <= 13 }

  function TrimStart(b: Bytes): Bytes { if b != [] && Blank(b[0]) then TrimStart(b[1..]) else b }

  function TrimEnd(b: Bytes): Bytes { if b != [] && Blank(b[|b| - 1]) then TrimEnd(b[..|b| - 1]) else b }

  function Trim(b: Bytes): Bytes { TrimEnd(TrimStart(b)) }

  function Lower(c: byte): byte { if 65 <= c <= 90 then c + 32 else c }

  predicate SameName(a: Bytes, b: Bytes) { |a| == |b| && forall i :: 0 <= i < |a| ==> Lower(a[i]) == Lower(b[i]) }

  /** "content-length" */
  const CONTENT_LENGTH: Bytes := [99, 111, 110, 116, 101, 110, 116, 45, 108, 101, 110, 103, 116, 104]

  function Digits(b: Bytes): Option<nat> {
    if b == [] then Some(0) else
    var last := b[|b| - 1];
    var before := Digits(b[..|b| - 1]);
    if before.Some? && 48 <= last <= 57 then Some(10 * before.value + (last - 48)) else None
  }

  /** A decimal number of at most 64 bits, with an optional plus sign. */
  function ParseSize(b: Bytes): Option<nat> {
    var digits := if b != [] && b[0] == 43 then b[1..] else b;
    if digits == [] then None else
    var n := Digits(digits);
    if n.Some? && n.value <= U64_MAX then n else None
  }

  function Decimal(n: nat): Bytes { if n < 10 then [48 + n] else Decimal(n / 10) + [48 + n % 10] }

  lemma {:induction false} DigitsDecimal(n: nat)
    ensures Digits(Decimal(n)) == Some(n) && Decimal(n) != [] && 48 <= Decimal(n)[0] <= 57
  {
    var d := Decimal(n);
    if n < 10 {
      assert d[..0] == [];
    } else {
      DigitsDecimal(n / 10);
      assert d[..|d| - 1] == Decimal(n / 10);
    }
  }

  /** A size written in decimal reads back, when it fits 64 bits. */
  lemma SizeRoundTrip(n: nat)
    ensures ParseSize(Decimal(n)) == if n <= U64_MAX then Some(n) else None
  {
    DigitsDecimal(n);
  }

  function IndexOf(b: Bytes, c: byte): (r: Option<nat>)
    ensures r.Some? ==> r.value < |b| && b[r.value] == c
  {
    if b == [] then None else if b[0] == c then Some(0) else
    var rest := IndexOf(b[1..], c);
    if rest.Some? then Some(rest.value + 1) else None
  }

  /** The size a header line announces, if it is a content-length line that parses. */
  function LineSize(line: Bytes): Option<nat> {
    var colon := IndexOf(line, 58);
    if colon.None? || !SameName(Trim(line[..colon.value]), CONTENT_LENGTH) then None
    else ParseSize(Trim(line[colon.value + 1..]))
  }

  /** The first announced size in the head, line by line; zero when there is none. */
  function ContentLength(head: Bytes): nat
    decreases |head|
  {
    var feed := IndexOf(head, 10);
    var line := if feed.Some? then head[..feed.value] else head;
    var size := LineSize(line);
    if size.Some? then size.value
    else if feed.Some? then ContentLength(head[feed.value + 1..]) else 0
  }

  // ---- what announces a length ------------------------------------------------------------------------

  /** Tab, line feed, vertical tab, form feed, carriage return, space. */
  const SPACES: Bytes := [9, 10, 11, 12, 13, 32]

  ghost predicate AllBlank(b: Bytes) { forall i :: 0 <= i < |b| ==> b[i] in SPACES }

  /** Nothing to trim: not blank at either end. */
  ghost predicate Solid(b: Bytes) { b == [] || (b[0] !in SPACES && b[|b| - 1] !in SPACES) }

  /** The header's name, each letter in either case. */
  predicate Spelled(name: Bytes) {
    |name| == 14 && forall i :: 0 <= i < 14 ==>
      name[i] == CONTENT_LENGTH[i] || (CONTENT_LENGTH[i] != 45 && name[i] == CONTENT_LENGTH[i] - 32)
  }

  function Zeros(k: nat): Bytes { if k == 0 then [] else [48] + Zeros(k - 1) }

  /** A decimal numeral, with an optional plus sign and leading zeros, of a 64-bit number. */
  ghost predicate Numeral(text: Bytes, n: nat) {
    n <= U64_MAX && exists k: nat :: text == Zeros(k) + Decimal(n) || text == [43] + (Zeros(k) + Decimal(n))
  }

  /** A line that announces `n`: name, colon and numeral, blanks around each. */
  ghost predicate Announces(line: Bytes, n: nat) {
    exists before: Bytes, value: Bytes :: Written(line, before, value, n)
  }

  ghost predicate Written(line: Bytes, before: Bytes, value: Bytes, n: nat) {
    && line == before + [58] + value
    && (exists p: Bytes, name: Bytes, q: Bytes :: Padded(before, p, name, q) && Spelled(name))
    && (exists p: Bytes, text: Bytes, q: Bytes :: Padded(value, p, text, q) && Numeral(text, n))
  }

  ghost predicate Padded(b: Bytes, p: Bytes, inner: Bytes, q: Bytes) {
    b == p + inner + q && AllBlank(p) && AllBlank(q) && Solid(inner)
  }

  lemma {:induction false} TrimStartParts(b: Bytes) returns (p: Bytes)
    ensures b == p + TrimStart(b) && AllBlank(p)
    ensures TrimStart(b) == [] || !Blank(TrimStart(b)[0])
  {
    p := [];
    if b != [] && Blank(b[0]) {
      var q := TrimStartParts(b[1..]);
      p := [b[0]] + q;
    }
  }

  lemma {:induction false} TrimEndParts(b: Bytes) returns (q: Bytes)
    ensures b == TrimEnd(b) + q && AllBlank(q)
    ensures TrimEnd(b) == [] || !Blank(TrimEnd(b)[|TrimEnd(b)| - 1])
  {
    q := [];
    if b != [] && Blank(b[|b| - 1]) {
      var p := TrimEndParts(b[..|b| - 1]);
      q := p + [b[|b| - 1]];
    }
  }

  lemma TrimParts(b: Bytes) returns (p: Bytes, q: Bytes)
    ensures Padded(b, p, Trim(b), q)
  {
    p := TrimStartParts(b);
    q := TrimEndParts(TrimStart(b));
    assert Trim(b) != [] ==> Trim(b)[0] == TrimStart(b)[0];
  }

  lemma {:induction false} TrimStartPadded(p: Bytes, rest: Bytes)
    requires AllBlank(p) && (rest == [] || !Blank(rest[0]))
    ensures TrimStart(p + rest) == rest
  {
    if p == [] {
      assert p + rest == rest;
    } else {
      assert (p + rest)[1..] == p[1..] + rest;
      TrimStartPadded(p[1..], rest);
    }
  }

  lemma {:induction false} TrimEndPadded(rest: Bytes, q: Bytes)
    requires AllBlank(q) && (rest == [] || !Blank(rest[|rest| - 1]))
    ensures TrimEnd(rest + q) == rest
  {
    if q == [] {
      assert rest + q == rest;
    } else {
      var all := rest + q;
      assert all[..|all| - 1] == rest + q[..|q| - 1];
      TrimEndPadded(rest, q[..|q| - 1]);
    }
  }

  /** Trimming finds what was padded. */
  lemma TrimPadded(b: Bytes, p: Bytes, inner: Bytes, q: Bytes)
    requires Padded(b, p, inner, q)
    ensures Trim(b) == inner
  {
    if inner == [] {
      assert b == (p + q) + [] && AllBlank(p + q);
      TrimStartPadded(p + q, []);
    } else {
      assert b == p + (inner + q);
      TrimStartPadded(p, inner + q);
      TrimEndPadded(inner, q);
    }
  }

  lemma SpelledSame(name: Bytes)
    ensures SameName(name, CONTENT_LENGTH) <==> Spelled(name)
  {
    if |name| == 14 {
      forall i | 0 <= i < 14
        ensures Lower(name[i]) == Lower(CONTENT_LENGTH[i]) <==>
                name[i] == CONTENT_LENGTH[i] || (CONTENT_LENGTH[i] != 45 && name[i] == CONTENT_LENGTH[i] - 32)
      {
        assert CONTENT_LENGTH[i] == 45 || 97 <= CONTENT_LENGTH[i] <= 122;
      }
    }
  }

  lemma {:induction false} ZerosDigits(k: nat, b: Bytes)
    ensures Digits(Zeros(k) + b) == Digits(b)
    decreases k + |b|
  {
    ZerosSize(k);
    var all := Zeros(k) + b;
    if b != [] {
      assert all[..|all| - 1] == Zeros(k) + b[..|b| - 1];
      ZerosDigits(k, b[..|b| - 1]);
    } else if k > 0 {
      ZerosSize(k - 1);
      assert all[..k - 1] == Zeros(k - 1) + [];
      ZerosDigits(k - 1, []);
      assert all[k - 1] == 48;
    }
  }

  lemma {:induction false} ZerosSize(k: nat)
    ensures |Zeros(k)| == k && forall i :: 0 <= i < k ==> Zeros(k)[i] == 48
  {
    if k > 0 {
      ZerosSize(k - 1);
    }
  }

  lemma {:induction false} DigitsNumeral(b: Bytes, n: nat) returns (k: nat)
    requires b != [] && Digits(b) == Some(n)
    ensures b == Zeros(k) + Decimal(n)
  {
    hide Digits, Decimal, Zeros;
    var init, last := b[..|b| - 1], b[|b| - 1];
    var m := DigitsLast(b, n);
    DecimalNext(m, last - 48);
    if init == [] {
      k := 0;
      ZerosSize(k);
    } else {
      k := DigitsNumeral(init, m);
      ZerosSize(k);
      ZerosSize(k + 1);
      assert b == Zeros(k) + Decimal(m) + [last];
      if m == 0 {
        k := k + 1;
      }
    }
  }

  lemma DigitsLast(b: Bytes, n: nat) returns (m: nat)
    requires b != [] && Digits(b) == Some(n)
    ensures Digits(b[..|b| - 1]) == Some(m) && 48 <= b[|b| - 1] <= 57 && n == 10 * m + (b[|b| - 1] - 48)
    ensures |b| == 1 ==> m == 0
  {
    m := Digits(b[..|b| - 1]).value;
  }

  lemma DecimalNext(m: nat, d: nat)
    requires d < 10
    ensures Decimal(0) == [48] && (m == 0 ==> Decimal(d) == [48 + d])
    ensures m > 0 ==> Decimal(10 * m + d) == Decimal(m) + [48 + d]
  {
    assert (10 * m + d) / 10 == m && (10 * m + d) % 10 == d;
  }

  lemma NumeralParses(text: Bytes, n: nat)
    ensures ParseSize(text) == Some(n) <==> Numeral(text, n)
  {
    if Numeral(text, n) {
      NumeralRead(text, n);
    }
    if ParseSize(text) == Some(n) {
      ReadNumeral(text, n);
    }
  }

  lemma ReadNumeral(text: Bytes, n: nat)
    requires ParseSize(text) == Some(n)
    ensures Numeral(text, n)
  {
    hide Digits, Decimal, Zeros;
    var digits := if text[0] == 43 then text[1..] else text;
    var k := DigitsNumeral(digits, n);
    assert text[0] == 43 ==> text == [43] + digits;
  }

  lemma NumeralRead(text: Bytes, n: nat)
    requires Numeral(text, n)
    ensures ParseSize(text) == Some(n)
  {
    hide Digits, Decimal, Zeros;
    var k: nat :| text == Zeros(k) + Decimal(n) || text == [43] + (Zeros(k) + Decimal(n));
    var digits := Zeros(k) + Decimal(n);
    ZerosDigits(k, Decimal(n));
    ZerosSize(k);
    DigitsDecimal(n);
    assert digits != [] && 48 <= digits[0] <= 57;
    assert text[0] == 43 ==> text[1..] == digits;
  }

  lemma {:induction false} FirstIndex(b: Bytes, c: byte, rest: Bytes)
    requires c !in b
    ensures IndexOf(b + [c] + rest, c) == Some(|b|)
  {
    var all := b + [c] + rest;
    if b != [] {
      assert all[1..] == b[1..] + [c] + rest;
      FirstIndex(b[1..], c, rest);
    }
  }

  lemma {:induction false} IndexBefore(b: Bytes, c: byte)
    ensures IndexOf(b, c).None? <==> c !in b
    ensures IndexOf(b, c).Some? ==> c !in b[..IndexOf(b, c).value]
  {
    if b != [] && b[0] != c {
      IndexBefore(b[1..], c);
      var i := IndexOf(b, c);
      if i.Some? {
        assert b[..i.value] == [b[0]] + b[1..][..i.value - 1];
      }
    }
  }

  /** A line's size is read exactly when the line announces it. */
  lemma LineAnnounces(line: Bytes, n: nat)
    ensures LineSize(line) == Some(n) <==> Announces(line, n)
  {
    if Announces(line, n) {
      AnnouncedRead(line, n);
    }
    if LineSize(line) == Some(n) {
      ReadAnnounced(line, n);
    }
  }

  lemma AnnouncedRead(line: Bytes, n: nat)
    requires Announces(line, n)
    ensures LineSize(line) == Some(n)
  {
    hide TrimStart, TrimEnd, ParseSize, Numeral;
    var before, value :| Written(line, before, value, n);
    var p, name, q :| Padded(before, p, name, q) && Spelled(name);
    var r, text, t :| Padded(value, r, text, t) && Numeral(text, n);
    NamePlain(before, p, name, q);
    FirstIndex(before, 58, value);
    assert line[..|before|] == before && line[|before| + 1..] == value;
    TrimPadded(before, p, name, q);
    TrimPadded(value, r, text, t);
    SpelledSame(name);
    NumeralParses(text, n);
  }

  lemma NamePlain(before: Bytes, p: Bytes, name: Bytes, q: Bytes)
    requires Padded(before, p, name, q) && Spelled(name)
    ensures 58 !in before
  {
    forall i | 0 <= i < 14 ensures name[i] != 58 {
      assert CONTENT_LENGTH[i] == 45 || 97 <= CONTENT_LENGTH[i] <= 122;
    }
  }

  lemma ReadAnnounced(line: Bytes, n: nat)
    requires LineSize(line) == Some(n)
    ensures Announces(line, n)
  {
    hide TrimStart, TrimEnd, ParseSize, Numeral, Spelled, SameName;
    var colon := IndexOf(line, 58).value;
    var before, value := line[..colon], line[colon + 1..];
    var p, q := TrimParts(before);
    var r, t := TrimParts(value);
    SpelledSame(Trim(before));
    NumeralParses(Trim(value), n);
    assert line == before + [58] + value;
    assert Written(line, before, value, n);
  }

  /** A line of the head, from `i` to `j`. */
  predicate LineAt(head: Bytes, i: nat, j: nat) {
    && i <= j <= |head| && (i == 0 || head[i - 1] == 10) && (j == |head| || head[j] == 10) && 10 !in head[i..j]
  }

  /** The line from `i` to `j` announces `n`. */
  ghost predicate Says(head: Bytes, i: nat, j: nat, n: nat) { LineAt(head, i, j) && Announces(head[i..j], n) }

  /** The line from `i` to `j` announces `n`, and no earlier line announces anything. */
  ghost predicate SaysFirst(head: Bytes, i: nat, j: nat, n: nat) {
    Says(head, i, j, n) && forall k: nat, l: nat, m: nat :: k < i ==> !Says(head, k, l, m)
  }

  ghost predicate FirstSaid(head: Bytes, n: nat) { exists i: nat, j: nat :: SaysFirst(head, i, j, n) }

  ghost predicate Silent(head: Bytes) { forall k: nat, l: nat, m: nat :: !Says(head, k, l, m) }

  lemma FirstLine(head: Bytes) returns (end: nat)
    ensures LineAt(head, 0, end)
    ensures forall k: nat, l: nat :: LineAt(head, k, l) && k <= end ==> k == 0 && l == end
    ensures IndexOf(head, 10) == if end < |head| then Some(end) else None
  {
    IndexBefore(head, 10);
    var feed := IndexOf(head, 10);
    end := if feed.Some? then feed.value else |head|;
    assert head[0..end] == head[..end];
    forall k: nat, l: nat | LineAt(head, k, l) && k <= end ensures k == 0 && l == end {
      OneLine(head, end, k, l);
    }
  }

  lemma OneLine(head: Bytes, end: nat, k: nat, l: nat)
    requires LineAt(head, 0, end) && LineAt(head, k, l) && k <= end
    ensures k == 0 && l == end
  {
    NoFeed(head, 0, end);
    NoFeed(head, k, l);
  }

  lemma NoFeed(head: Bytes, i: nat, j: nat)
    requires LineAt(head, i, j)
    ensures forall x :: i <= x < j ==> head[x] != 10
  {
    forall x | i <= x < j ensures head[x] != 10 {
      assert head[i..j][x - i] == head[x];
    }
  }

  lemma SaysLater(head: Bytes, end: nat, k: nat, l: nat, m: nat)
    requires end < |head| && head[end] == 10
    ensures Says(head[end + 1..], k, l, m) <==> Says(head, end + 1 + k, end + 1 + l, m)
  {
    if k <= l && end + 1 + l <= |head| {
      assert head[end + 1..][k..l] == head[end + 1 + k..end + 1 + l];
    }
  }

  /** The length of the body is what the first announcing line of the head says, and zero without one. */
  lemma {:induction false} ContentLengthMeans(head: Bytes)
    ensures Silent(head) ==> ContentLength(head) == 0
    ensures !Silent(head) ==> FirstSaid(head, ContentLength(head))
    decreases |head|
  {
    hide Announces, LineAt, LineSize, IndexOf;
    var end := FirstLine(head);
    LineWithin(head, 0, end);
    var line := head[0..end];
    assert line == head[..end] && (end == |head| ==> line == head);
    if LineSize(line).Some? {
      LineAnnounces(line, LineSize(line).value);
      assert ContentLength(head) == LineSize(line).value;
      assert SaysFirst(head, 0, end, ContentLength(head));
    } else {
      forall k: nat, l: nat, m: nat | k <= end ensures !Says(head, k, l, m) {
        LineAnnounces(line, m);
      }
      if end < |head| {
        ContentLengthMeans(head[end + 1..]);
        Shifted(head, end, ContentLength(head));
      } else {
        forall k: nat, l: nat, m: nat ensures !Says(head, k, l, m) {
          LineWithin(head, k, l);
        }
      }
    }
  }

  lemma LineWithin(head: Bytes, i: nat, j: nat)
    ensures LineAt(head, i, j) ==> i <= j <= |head| && (j < |head| ==> head[j] == 10)
  {
  }

  lemma Shifted(head: Bytes, end: nat, n: nat)
    requires end < |head| && head[end] == 10
    requires forall k: nat, l: nat, m: nat :: k <= end ==> !Says(head, k, l, m)
    ensures Silent(head) <==> Silent(head[end + 1..])
    ensures FirstSaid(head[end + 1..], n) ==> FirstSaid(head, n)
  {
    var rest := head[end + 1..];
    forall k: nat, l: nat, m: nat
      ensures Says(rest, k, l, m) <==> Says(head, end + 1 + k, end + 1 + l, m)
    {
      SaysLater(head, end, k, l, m);
    }
    forall k: nat, l: nat, m: nat | Says(head, k, l, m)
      ensures end < k <= l && Says(rest, k - end - 1, l - end - 1, m)
    {
      SaysLater(head, end, k - end - 1, l - end - 1, m);
    }
    if FirstSaid(rest, n) {
      var i: nat, j: nat :| SaysFirst(rest, i, j, n);
      assert SaysFirst(head, end + 1 + i, end + 1 + j, n);
    }
  }

  // ---- the whole stream at once -----------------------------------------------------------------------

  datatype Request = Request(head: Bytes, body: Bytes)

  /** The first request of a stream and how many bytes it takes, without regard to limits. */
  function Framed(stream: Bytes): (r: Option<(Request, nat)>)
    ensures r.Some? ==> 4 <= r.value.1 <= |stream|
  {
    var split := Find(stream);
    if split.None? then None else
    var head := stream[..split.value];
    var start, length := split.value + 4, ContentLength(head);
    if |stream| < start + length then None
    else Some((Request(head, stream[start..start + length]), start + length))
  }

  function FramedAll(stream: Bytes): seq<Request>
    decreases |stream|
  {
    var first := Framed(stream);
    if first.None? then [] else [first.value.0] + FramedAll(stream[first.value.1..])
  }

  function Join(chunks: seq<Piece>): Bytes {
    if chunks == [] then [] else chunks[0] + Join(chunks[1..])
  }

  lemma {:induction false} JoinSplit(chunks: seq<Piece>, j: nat)
    requires j <= |chunks|
    ensures Join(chunks) == Join(chunks[..j]) + Join(chunks[j..])
  {
    if j == 0 {
      assert chunks[j..] == chunks;
    } else {
      JoinSplit(chunks[1..], j - 1);
      assert chunks[..j][1..] == chunks[1..][..j - 1];
      assert chunks[j..] == chunks[1..][j - 1..];
    }
  }

  lemma JoinNext(chunks: seq<Piece>, j: nat)
    requires j < |chunks|
    ensures Join(chunks[..j + 1]) == Join(chunks[..j]) + chunks[j]
  {
    JoinSplit(chunks[..j + 1], j);
    assert chunks[..j + 1][..j] == chunks[..j];
    assert chunks[..j + 1][j..] == [chunks[j]];
    assert Join([chunks[j]]) == chunks[j] + Join([]);
  }

  // ---- piece by piece ---------------------------------------------------------------------------------

  /** How many bytes a reader holds after `j` reads. */
  function Held(buffer: Bytes, chunks: seq<Piece>, j: nat): nat
    requires j <= |chunks|
  {
    |buffer| + |Join(chunks[..j])|
  }

  /** The reader holds more than a head may take while the blank line is still incomplete. */
  ghost predicate GivesUp(buffer: Bytes, chunks: seq<Piece>) {
    var split := Find(buffer + Join(chunks));
    split.Some? && exists j: nat :: j <= |chunks| && MAX_HEAD < Held(buffer, chunks, j) < split.value + 4
  }

  /** The stream's first request, if it is complete and the reader neither gives up on its head nor
      refuses its body. */
  ghost predicate Readable(buffer: Bytes, chunks: seq<Piece>) {
    var first := Framed(buffer + Join(chunks));
    first.Some? && !GivesUp(buffer, chunks) && ContentLength(first.value.0.head) <= MAX_BODY
  }

  class Connection {
    var buffer: Bytes
    var chunks: seq<Piece>

    ghost function Stream(): Bytes
      reads this
    {
      buffer + Join(chunks)
    }

    constructor (reads': seq<Piece>)
      ensures buffer == [] && chunks == reads'
    {
      buffer, chunks := [], reads';
    }

    /** One read; nothing more comes after the last. */
    method Read() returns (more: bool)
      modifies this
      ensures Stream() == old(Stream()) && more == (old(chunks) != [])
      ensures if more then buffer == old(buffer + chunks[0]) && chunks == old(chunks[1..])
              else buffer == old(buffer) && chunks == old(chunks)
    {
      more := chunks != [];
      if more {
        assert buffer + (chunks[0] + Join(chunks[1..])) == buffer + chunks[0] + Join(chunks[1..]);
        buffer, chunks := buffer + chunks[0], chunks[1..];
      }
    }

    /** Reads until the blank line is in the buffer, too much has been read, or nothing more comes. */
    method ReadHead() returns (split: Option<nat>)
      modifies this
      ensures Stream() == old(Stream())
      ensures split.Some? ==> split == Find(buffer) == Find(Stream()) && !GivesUp(old(buffer), old(chunks))
      ensures split.None? ==> Find(Stream()).None? || GivesUp(old(buffer), old(chunks))
    {
      ghost var b0, c0, j := buffer, chunks, 0;
      assert c0[..0] == [];
      while true
        invariant j <= |c0| && chunks == c0[j..] && buffer == b0 + Join(c0[..j]) && Stream() == b0 + Join(c0)
        invariant forall i: nat :: i < j ==> Held(b0, c0, i) <= MAX_HEAD
        decreases |chunks|
      {
        split := Find(buffer);
        FindPrefix(buffer, Stream());
        if split.Some? {
          forall i: nat | i <= j && MAX_HEAD < Held(b0, c0, i) ensures split.value + 4 <= Held(b0, c0, i) {
            assert i == j;
          }
          LongerHolds(b0, c0, j);
          return;
        }
        if |buffer| > MAX_HEAD {
          assert Held(b0, c0, j) > MAX_HEAD;
          return None;
        }
        assert Held(b0, c0, j) <= MAX_HEAD;
        var more := Read();
        if !more {
          assert buffer == Stream();
          return None;
        }
        JoinNext(c0, j);
        j := j + 1;
      }
    }

    /** Reads one request. It comes back exactly when it is readable, and then it is the request framed in
        the whole stream, with the rest of the stream left to be read. */
    method ReadRequest() returns (r: Option<Request>)
      modifies this
      ensures r.Some? <==> Readable(old(buffer), old(chunks))
      ensures r.Some? ==> Framed(old(Stream())).Some? && r.value == Framed(old(Stream())).value.0
      ensures Stream() == if r.Some? then old(Stream())[Framed(old(Stream())).value.1..] else old(Stream())
    {
      hide GivesUp, Find, ContentLength;
      ghost var stream := Stream();
      var split := ReadHead();
      if split.None? {
        return None;
      }
      FoundWithin(buffer);
      var head := buffer[..split.value];
      assert head == stream[..split.value];
      var length := ContentLength(head);
      if length > MAX_BODY {
        return None;
      }
      var start := split.value + 4;
      while |buffer| < start + length
        invariant Stream() == stream && start <= |buffer| && head == stream[..split.value]
        decreases |chunks|
      {
        var more := Read();
        if !more {
          assert Stream() == buffer;
          return None;
        }
      }
      assert buffer[start..start + length] == stream[start..start + length];
      r := Some(Request(head, buffer[start..start + length]));
      assert stream[start + length..] == buffer[start + length..] + Join(chunks);
      buffer := buffer[start + length..];
    }

    /** Reads requests until one cannot be read. However the stream was cut into pieces, they are its
        leading requests, and all of them when every head and body is within its limit. */
    method ReadAll() returns (requests: seq<Request>)
      modifies this
      ensures requests <= FramedAll(old(Stream()))
      ensures Fits(old(Stream())) ==> requests == FramedAll(old(Stream())) && Stream() == Leftover(old(Stream()))
    {
      requests := [];
      ghost var stream := Stream();
      while true
        invariant FramedAll(stream) == requests + FramedAll(Stream()) && Leftover(stream) == Leftover(Stream())
        invariant Fits(stream) ==> Fits(Stream())
        decreases |Stream()|
      {
        ghost var now, b, c := Stream(), buffer, chunks;
        var r := ReadRequest();
        if r.None? {
          if Fits(stream) && Framed(now).Some? {
            FitsReadable(b, c);
          }
          return;
        }
        assert FramedAll(now) == [r.value] + FramedAll(Stream());
        requests := requests + [r.value];
      }
    }
  }

  /** Every head of the stream ends within its limit and every body is within its own. */
  ghost predicate Fits(stream: Bytes)
    decreases |stream|
  {
    var first := Framed(stream);
    first.Some? ==>
      |first.value.0.head| + 3 <= MAX_HEAD && ContentLength(first.value.0.head) <= MAX_BODY
      && Fits(stream[first.value.1..])
  }

  /** What is left of a stream after its requests. */
  function Leftover(stream: Bytes): Bytes
    decreases |stream|
  {
    var first := Framed(stream);
    if first.None? then stream else Leftover(stream[first.value.1..])
  }

  lemma FitsReadable(buffer: Bytes, chunks: seq<Piece>)
    requires Fits(buffer + Join(chunks)) && Framed(buffer + Join(chunks)).Some?
    ensures Readable(buffer, chunks)
  {
  }

  function Singles(b: Bytes): seq<Piece> { if b == [] then [] else [[b[0]]] + Singles(b[1..]) }

  lemma {:induction false} SinglesJoin(b: Bytes, j: nat)
    requires j <= |b|
    ensures |Singles(b)| == |b| && Join(Singles(b)) == b && Join(Singles(b)[..j]) == b[..j]
  {
    if b != [] {
      SinglesJoin(b[1..], if j > 0 then j - 1 else 0);
      assert b == [b[0]] + b[1..];
      if j > 0 {
        assert Singles(b)[..j][1..] == Singles(b[1..])[..j - 1];
        assert b[..j] == [b[0]] + b[1..][..j - 1];
      }
    }
  }

  /** On a fresh connection the head limit is exact: every way of cutting the stream lets the reader see
      its first head if and only if all but the head's last byte, blank line included, are within it. */
  lemma HeadLimitExact(stream: Bytes)
    requires Find(stream).Some?
    ensures (forall chunks: seq<Piece> :: Join(chunks) == stream ==> !GivesUp([], chunks))
            <==> Find(stream).value + 3 <= MAX_HEAD
  {
    var end := Find(stream).value + 4;
    if end - 1 > MAX_HEAD {
      var chunks := Singles(stream);
      SinglesJoin(stream, MAX_HEAD + 1);
      assert [] + Join(chunks) == stream;
      assert Held([], chunks, MAX_HEAD + 1) == MAX_HEAD + 1;
      assert Join(chunks) == stream && GivesUp([], chunks);
    } else {
      forall chunks: seq<Piece> | Join(chunks) == stream ensures !GivesUp([], chunks) {
        assert [] + Join(chunks) == stream;
      }
    }
  }

  lemma {:induction false} LongerHolds(buffer: Bytes, chunks: seq<Piece>, j: nat)
    requires j <= |chunks|
    ensures forall i: nat :: j <= i <= |chunks| ==> Held(buffer, chunks, j) <= Held(buffer, chunks, i)
    decreases |chunks| - j
  {
    if j < |chunks| {
      JoinNext(chunks, j);
      LongerHolds(buffer, chunks, j + 1);
    }
  }
}
