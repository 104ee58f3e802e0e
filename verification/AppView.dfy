/** The receiving app: frames of a download stream decoded and shown as rows. */
module AppView {
  import opened Wrappers
  import opened LittleEndian
  import opened DomainDataWire
  import opened DirectoryKeys
  import opened FlatBuffers
  import opened PartitionMerge
  import opened PartitionStore
  import opened Framing

  // ----- strconv.ParseInt(s, 10, 64), with the error ignored ------------------------------

  const MAX_INT64 := 0x7FFF_FFFF_FFFF_FFFF
  const MAX_UINT64 := 0xFFFF_FFFF_FFFF_FFFF

  /** The digits of s after those read as n; None for a character that is no digit. */
  function ParseDigits(s: string, n: nat): Option<nat>
    ensures ParseDigits(s, n).Some? && n <= MAX_UINT64 ==> ParseDigits(s, n).value <= MAX_UINT64
    decreases |s|
  {
    if s == "" then Some(n)
    else if !('0' <= s[0] <= '9') then None
    else
      var next := 10 * n + (s[0] as int - '0' as int);
      if next > MAX_UINT64 then Some(MAX_UINT64) else ParseDigits(s[1..], next)
  }

  function ParseInt(s: string): (r: int)
    ensures -MAX_INT64 - 1 <= r <= MAX_INT64
  {
    var signed := s != "" && (s[0] == '+' || s[0] == '-');
    var digits := if signed then s[1..] else s;
    if digits == "" || ParseDigits(digits, 0).None? then 0
    else
      var n := ParseDigits(digits, 0).value;
      if s[0] == '-' then if n > MAX_INT64 + 1 then -MAX_INT64 - 1 else 0 - n
      else if n > MAX_INT64 then MAX_INT64 else n
  }

  lemma {:induction false} ParseOneMore(s: string, n: nat, v: nat, c: char)
    requires ParseDigits(s, n) == Some(v) && '0' <= c <= '9'
    requires n <= MAX_UINT64 && 10 * v + (c as int - '0' as int) <= MAX_UINT64
    ensures ParseDigits(s + [c], n) == Some(10 * v + (c as int - '0' as int))
    decreases |s|
  {
    if s == "" {
      assert s + [c] == [c] && [c][1..] == "";
    } else {
      assert (s + [c])[1..] == s[1..] + [c];
      ParseOneMore(s[1..], 10 * n + (s[0] as int - '0' as int), v, c);
    }
  }

  lemma {:induction false} ParseDecimal(n: nat)
    requires n <= MAX_UINT64
    ensures ParseDigits(Decimal(n), 0) == Some(n)
  {
    if n < 10 {
      assert Decimal(n)[1..] == "";
    } else {
      ParseDecimal(n / 10);
      ParseOneMore(Decimal(n / 10), 0, n / 10, Digit(n % 10));
    }
  }

  /** The names the sender draws, strconv.Itoa of a number, parse back to that number. */
  lemma NamesParseBack(n: nat)
    requires n <= MAX_INT64
    ensures ParseInt(Decimal(n)) == n
  {
    ParseDecimal(n);
    DecimalDigits(n);
    DecimalNonEmpty(n);
    assert Decimal(n)[0] in Decimal(n);
  }

  /** The digits behind an optional sign. */
  function Digits(s: string): string {
    if s != "" && (s[0] == '+' || s[0] == '-') then s[1..] else s
  }

  /** No digits at all, or something else among the first nineteen characters, before a number can overflow. */
  ghost predicate NoNumber(s: string) {
    Digits(s) == "" || exists i :: 0 <= i < |Digits(s)| && i < 19 && !('0' <= Digits(s)[i] <= '9')
  }

  lemma {:induction false} BadDigit(s: string, n: nat, i: nat, k: nat)
    requires i < |s| && !('0' <= s[i] <= '9') && n < Power10(k) && i + k < 20
    ensures ParseDigits(s, n).None?
    decreases |s|
  {
    if i > 0 && '0' <= s[0] <= '9' {
      Power10Of19();
      Power10Grows(k + 1, 19);
      BadDigit(s[1..], 10 * n + (s[0] as int - '0' as int), i - 1, k + 1);
    }
  }

  function Power10(n: nat): (p: nat)
    ensures p > 0
  {
    if n == 0 then 1 else 10 * Power10(n - 1)
  }

  lemma {:induction false} Power10Grows(m: nat, n: nat)
    requires m <= n
    ensures Power10(m) <= Power10(n)
    decreases n
  {
    if m < n {
      Power10Grows(m, n - 1);
    }
  }

  lemma Power10Of19()
    ensures Power10(19) == 10_000_000_000_000_000_000
  {
    assert Power10(3) == 1000;
    assert Power10(6) == 1000 * Power10(3) && Power10(9) == 1000 * Power10(6) && Power10(12) == 1000 * Power10(9);
    assert Power10(15) == 1000 * Power10(12) && Power10(18) == 1000 * Power10(15);
  }

  /** The error is ignored, so a name that is no number counts as row 0. */
  lemma NoNumberIsZero(s: string)
    requires NoNumber(s)
    ensures ParseInt(s) == 0
  {
    hide ParseDigits;
    if Digits(s) != "" {
      var i :| 0 <= i < |Digits(s)| && i < 19 && !('0' <= Digits(s)[i] <= '9');
      BadDigit(Digits(s), 0, i, 0);
    }
  }

  lemma NegativeNumber(n: nat)
    requires 0 < n <= MAX_INT64
    ensures ParseInt("-" + Decimal(n)) == -(n as int)
  {
    ParseDecimal(n);
    DecimalNonEmpty(n);
    assert ("-" + Decimal(n))[1..] == Decimal(n);
  }

  // ----- The rows -----------------------------------------------------------------------------

  const ROWS := 5

  /** One number per bit, 0 or 1. */
  type Row = Buffer

  /** The rows so far, and whether the callback went through, returned an error or panicked. */
  datatype Outcome = Shown(rows: seq<Row>) | Rejected(rows: seq<Row>) | Crashed(rows: seq<Row>)

  function RowOf(m: DomainData): int {
    ParseInt(Text(m.name))
  }

  function ShowOne(rows: seq<Row>, m: DomainData): Outcome
    requires |rows| == ROWS
  {
    if m.bits.None? then Rejected(rows)
    else if 0 <= RowOf(m) < ROWS then Shown(rows[RowOf(m) := BytesOf(m.bits.value)])
    else Crashed(rows)
  }

  /** The first message that is not shown ends the loop. */
  function ShowAll(rows: seq<Row>, ms: seq<DomainData>): (r: Outcome)
    requires |rows| == ROWS
    ensures |r.rows| == ROWS
    decreases |ms|
  {
    if ms == [] then Shown(rows)
    else
      var next := ShowOne(rows, ms[0]);
      if next.Shown? then ShowAll(next.rows, ms[1..]) else next
  }

  /** What becomes of a partition, by its name: rows 0 to 4 are shown, others crash the app. */
  lemma ShownByName(rows: seq<Row>, m: DomainData, n: nat)
    requires |rows| == 5 && m.bits.Some? && n <= MAX_INT64
    ensures Text(m.name) == Decimal(n) ==>
      ShowOne(rows, m) == if n < 5 then Shown(rows[n := BytesOf(m.bits.value)]) else Crashed(rows)
    ensures n > 0 && Text(m.name) == "-" + Decimal(n) ==> ShowOne(rows, m) == Crashed(rows)
    ensures NoNumber(Text(m.name)) ==> ShowOne(rows, m) == Shown(rows[0 := BytesOf(m.bits.value)])
  {
    hide ParseInt, NoNumber, Decimal;
    NamesParseBack(n);
    if n > 0 {
      NegativeNumber(n);
    }
    if NoNumber(Text(m.name)) {
      NoNumberIsZero(Text(m.name));
    }
  }

  /** A message of another type, or without its data, is an error of the callback; no row changes. */
  lemma OthersRejected(rows: seq<Row>, body: Buffer)
    requires |rows| == 5 && ParseBody(body).Some?
    ensures ShowOne(rows, ParseBody(body).value) == Rejected(rows) <==>
      DataType(body, Root(body, 0).value) != Some(2) || Data(body, Root(body, 0).value) == Some(None)
  {
    hide ParseInt, ScalarField, FieldOffset, Bits, ByteField;
  }

  /** The first message that is not shown ends the loop, with the rows as they were. */
  lemma {:induction false} ShowParts(rows: seq<Row>, ms: seq<DomainData>, more: seq<DomainData>)
    requires |rows| == ROWS
    ensures var first := ShowAll(rows, ms);
      ShowAll(rows, ms + more) == if first.Shown? then ShowAll(first.rows, more) else first
    decreases |ms|
  {
    hide ParseInt;
    if ms == [] {
      assert ms + more == more;
    } else {
      assert (ms + more)[1..] == ms[1..] + more;
      if ShowOne(rows, ms[0]).Shown? {
        ShowParts(ShowOne(rows, ms[0]).rows, ms[1..], more);
      }
    }
  }

  class Visual {
    const list: array<Row>

    constructor ()
      ensures fresh(list) && list.Length == ROWS && list[..] == Blank()
    {
      list := new Row[ROWS](_ => []);
    }

    /** Writing outside the list panics. */
    method AddRow(rowIndex: int, row: Row)
      requires 0 <= rowIndex < list.Length
      modifies list
      ensures list[..] == old(list[..])[rowIndex := row]
    {
      list[rowIndex] := row;
    }
  }

  function Blank(): seq<Row> {
    seq(ROWS, _ => [])
  }

  method PixelsOf(b: Buffer, p: int) returns (row: Row)
    requires Bits(b, p).Some?
    ensures row == BytesOf(Bits(b, p).value)
  {
    hide VectorField;
    ghost var bits := Bits(b, p).value;
    PartitionGetters(b, p, bits);
    row := [];
    var i := 0;
    while i < PartitionLength(b, p).value
      invariant 0 <= i <= |bits| && row == BytesOf(bits)[..i]
    {
      row := row + [if PartitionBit(b, p, i).value then 1 else 0];
      i := i + 1;
    }
  }

  // ----- The loop of downloadDomainData ------------------------------------------------------

  datatype AppResult = Ended(clean: bool) | CallbackError | Panic

  ghost predicate AllDecode(frames: seq<Buffer>) {
    forall i :: 0 <= i < |frames| ==> |frames[i]| >= 4 && ParseBody(frames[i][4..]).Some?
  }

  ghost function Decoded(frames: seq<Buffer>): (ms: seq<DomainData>)
    requires AllDecode(frames)
    ensures |ms| == |frames|
    ensures forall i :: 0 <= i < |ms| ==> ParseBody(frames[i][4..]) == Some(ms[i])
  {
    seq(|frames|, i requires 0 <= i < |frames| => ParseBody(frames[i][4..]).value)
  }

  function ResultFor(shown: Outcome, end: FrameResult): AppResult {
    match shown
    case Shown(_) => Ended(end == End)
    case Rejected(_) => CallbackError
    case Crashed(_) => Panic
  }

  /** What the callback does with one message. */
  method Show(v: Visual, body: Buffer) returns (ok: bool, panicked: bool)
    requires v.list.Length == ROWS && ParseBody(body).Some?
    modifies v.list
    ensures ShowOne(old(v.list[..]), ParseBody(body).value) ==
      if panicked then Crashed(v.list[..]) else if ok then Shown(v.list[..]) else Rejected(v.list[..])
  {
    hide ReadLE, ScalarField, ByteField, VectorField, Bits, ParseInt;
    var pos := Root(body, 0).value;
    var index := ParseInt(Text(Name(body, pos).value));
    var partition := GetPartition(body, pos).value;
    ok, panicked := false, false;
    if partition.None? {
      return;
    }
    var row := PixelsOf(body, partition.value);
    if 0 <= index < v.list.Length {
      v.AddRow(index, row);
      ok := true;
    } else {
      panicked := true;
    }
  }

  /** Rows and result depend on the bytes of the stream only, not on how they arrive. */
  method ShowDownload(reader: Reader, v: Visual) returns (r: AppResult)
    requires v.list.Length == ROWS && AllDecode(ParseStream(reader.Remaining()).frames)
    modifies reader, v.list
    ensures var s := old(ParseStream(reader.Remaining())); var shown := ShowAll(old(v.list[..]), Decoded(s.frames));
      && v.list[..] == shown.rows && r == ResultFor(shown, s.end)
      && (r == Panic <==> shown.Crashed?) && (r == CallbackError <==> shown.Rejected?)
      && (r == Ended(true) <==> shown.Shown? && s.end == End)
  {
    hide ParseBody, ShowOne, FirstFrame;
    ghost var all := ParseStream(reader.Remaining());
    ghost var fs, ms, shown := all.frames, Decoded(all.frames), ShowAll(v.list[..], Decoded(all.frames));
    ghost var i := 0;
    assert fs[0..] == fs && ms[0..] == ms;
    while true
      invariant 0 <= i <= |fs| && ParseStream(reader.Remaining()) == Frames(fs[i..], all.end)
      invariant ShowAll(v.list[..], ms[i..]) == shown
      decreases |reader.Remaining()|
    {
      ghost var s := reader.Remaining();
      var frame := reader.NextFrame();
      if !frame.Frame? {
        assert fs[i..] == [] && ms[i..] == [];
        return Ended(frame == End);
      }
      assert s[4 + |frame.body|..] == reader.Remaining();
      assert fs[i..][0] == frame.header + frame.body && fs[i][4..] == frame.body;
      assert ms[i..][1..] == ms[i + 1..] && fs[i..][1..] == fs[i + 1..];
      var ok, panicked := Show(v, frame.body);
      if panicked {
        return Panic;
      }
      if !ok {
        return CallbackError;
      }
      i := i + 1;
    }
  }
}
