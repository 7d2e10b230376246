/**
 The file service's HTTP side: range headers as the client prints and the server parses them, what
 a GET then answers (sections 14.1.2 and 14.2 of RFC 9110), and which chunks a PUT stores.
 */
module FileHttpService {
  import opened FileProtocol
  import opened FileCrypto
  import opened ObjectStorage
  import opened Wrappers

  const INT64_MAX := 0x7fff_ffff_ffff_ffff
  const MAX_SINGLE_GET_BYTES := 4 * 1024 * 1024

  datatype RangeResult = Absent | Range(offset: int, length: int) | Malformed | Unsatisfiable

  predicate IsDigit(ch: char) {
    '0' <= ch <= '9'
  }

  predicate IsSpace(ch: char) {
    ch in " \t\n\r" || ch == 11 as char || ch == 12 as char
  }

  function Trimmed(s: string): string {
    if s != "" && IsSpace(s[0]) then Trimmed(s[1..])
    else if s != "" && IsSpace(s[|s| - 1]) then Trimmed(s[..|s| - 1])
    else s
  }

  function Lower(s: string): string {
    seq(|s|, i requires 0 <= i < |s| => if 'A' <= s[i] <= 'Z' then (s[i] as int + 32) as char else s[i])
  }

  function IndexOf(s: string, ch: char): (k: int)
    ensures -1 <= k < |s|
    ensures k >= 0 ==> s[k] == ch && ch !in s[..k]
    ensures k == -1 ==> ch !in s
  {
    if s == "" then -1
    else if s[0] == ch then 0
    else
      var k := IndexOf(s[1..], ch);
      assert k >= 0 ==> s[..k + 1] == [s[0]] + s[1..][..k];
      if k == -1 then -1 else k + 1
  }

  function Decimal(n: nat): string {
    (if n < 10 then "" else Decimal(n / 10)) + [(n % 10 + '0' as int) as char]
  }

  /** Value of a non-empty string of digits; None for anything else. */
  function DigitsValue(s: string): Option<nat> {
    if s == "" || !IsDigit(s[|s| - 1]) then None
    else
      var last := s[|s| - 1] as int - '0' as int;
      if |s| == 1 then Some(last)
      else match DigitsValue(s[..|s| - 1])
        case None => None
        case Some(front) => Some(10 * front + last)
  }

  /** Optional sign and digits, within 64 bits. */
  function ToLongLong(s: string): Option<int> {
    var negative := s != "" && s[0] == '-';
    var digits := if s != "" && s[0] in "+-" then s[1..] else s;
    match DigitsValue(digits)
    case None => None
    case Some(n) => InInt64(if negative then 0 - n else n)
  }

  function InInt64(value: int): Option<int> {
    if -INT64_MAX - 1 <= value <= INT64_MAX then Some(value) else None
  }

  function ParseRange(header: string, blobSize: int): RangeResult {
    if header == "" then Absent
    else if Lower(header[..Min(6, |header|)]) != "bytes=" then Malformed
    else
      var spec := Trimmed(header[Min(6, |header|)..]);
      if spec == "" || ',' in spec || spec[0] == '-' then Malformed
      else
        var dash := IndexOf(spec, '-');
        if dash <= 0 then Malformed
        else
          var start := ToLongLong(Trimmed(spec[..dash]));
          if start.None? || start.value < 0 then Malformed
          else
            var endText := Trimmed(spec[dash + 1..]);
            var parsed := if endText == "" then Some(blobSize - 1) else ToLongLong(endText);
            if parsed.None? || (endText != "" && parsed.value < 0) then Malformed
            else if start.value >= blobSize then Unsatisfiable
            else
              var end := Min(parsed.value, blobSize - 1);
              if end < start.value then Malformed else Range(start.value, end - start.value + 1)
  }

  /** The header the client sends for `length` bytes from `start`. */
  function PrintRange(start: nat, length: nat): string
    requires length > 0
  {
    "bytes=" + Decimal(start) + "-" + Decimal(start + length - 1)
  }

  lemma {:induction false} DecimalDigits(n: nat)
    ensures Decimal(n) != ""
    ensures forall i :: 0 <= i < |Decimal(n)| ==> IsDigit(Decimal(n)[i])
    ensures DigitsValue(Decimal(n)) == Some(n)
  {
    if n >= 10 {
      DecimalDigits(n / 10);
    }
    assert Decimal(n)[..|Decimal(n)| - 1] == if n < 10 then "" else Decimal(n / 10);
  }

  lemma {:induction false} TrimmedIdle(s: string)
    requires s != "" && !IsSpace(s[0]) && !IsSpace(s[|s| - 1])
    ensures Trimmed(s) == s
  {
  }

  predicate Digits(s: string) {
    s != "" && forall i :: 0 <= i < |s| ==> IsDigit(s[i])
  }

  lemma DigitsParse(s: string)
    requires Digits(s) && DigitsValue(s).Some?
    ensures Trimmed(s) == s
    ensures ToLongLong(s) == if DigitsValue(s).value <= INT64_MAX then Some(DigitsValue(s).value) else None
  {
    hide DigitsValue;
    assert IsDigit(s[0]) && IsDigit(s[|s| - 1]);
    TrimmedIdle(s);
  }

  lemma {:induction false} IndexOfDash(a: string, b: string)
    requires forall i :: 0 <= i < |a| ==> IsDigit(a[i])
    ensures IndexOf(a + "-" + b, '-') == |a|
  {
    var s := a + "-" + b;
    if a == "" {
      assert s[0] == '-';
    } else {
      assert s[0] == a[0] && s[1..] == a[1..] + "-" + b;
      IndexOfDash(a[1..], b);
    }
  }

  /** A pair of digit strings joined by a dash, as the parser sees it. */
  lemma SpecParses(a: string, b: string, header: string, blobSize: int)
    requires Digits(a) && Digits(b) && DigitsValue(a).Some? && DigitsValue(b).Some?
    requires DigitsValue(a).value <= INT64_MAX && DigitsValue(b).value <= INT64_MAX
    requires header == "bytes=" + (a + "-" + b)
    ensures ParseRange(header, blobSize)
         == if DigitsValue(a).value >= blobSize then Unsatisfiable
            else if Min(DigitsValue(b).value, blobSize - 1) < DigitsValue(a).value then Malformed
            else Range(DigitsValue(a).value, Min(DigitsValue(b).value, blobSize - 1) - DigitsValue(a).value + 1)
  {
    hide DigitsValue, ToLongLong, Trimmed, IndexOf;
    var spec := a + "-" + b;
    assert header[..6] == "bytes=" && header[6..] == spec;
    assert Lower("bytes=") == "bytes=";
    assert IsDigit(a[0]) && spec[0] == a[0];
    assert IsDigit(b[|b| - 1]) && spec[|spec| - 1] == b[|b| - 1];
    TrimmedIdle(spec);
    assert ',' !in a && ',' !in b;
    IndexOfDash(a, b);
    assert spec[..|a|] == a && spec[|a| + 1..] == b;
    DigitsParse(a);
    DigitsParse(b);
  }

  /** Parsing what the client printed: exactly the requested bytes, cut at the end of the object. */
  lemma RangeRoundTrip(start: nat, length: nat, blobSize: int)
    requires length > 0 && start + length - 1 <= INT64_MAX
    ensures ParseRange(PrintRange(start, length), blobSize)
         == if start < blobSize then Range(start, Min(length, blobSize - start)) else Unsatisfiable
  {
    hide Decimal, DigitsValue, ParseRange;
    DecimalDigits(start);
    DecimalDigits(start + length - 1);
    var a, b := Decimal(start), Decimal(start + length - 1);
    assert PrintRange(start, length) == "bytes=" + (a + "-" + b);
    SpecParses(a, b, PrintRange(start, length), blobSize);
  }

  /** A range without an end is the rest of the object. */
  lemma OpenRange(start: nat, blobSize: int)
    requires start <= INT64_MAX
    ensures ParseRange("bytes=" + Decimal(start) + "-", blobSize)
         == if start < blobSize then Range(start, blobSize - start) else Unsatisfiable
  {
    hide Decimal, DigitsValue, ToLongLong, Trimmed, IndexOf;
    DecimalDigits(start);
    var a := Decimal(start);
    var spec := a + "-" + "";
    var header := "bytes=" + a + "-";
    assert header[..6] == "bytes=" && header[6..] == spec;
    assert Lower("bytes=") == "bytes=";
    assert IsDigit(a[0]) && spec[0] == a[0] && spec[|spec| - 1] == '-';
    TrimmedIdle(spec);
    assert ',' !in a;
    IndexOfDash(a, "");
    assert spec[..|a|] == a && spec[|a| + 1..] == "";
    NothingTrimmed();
    DigitsParse(a);
  }

  lemma NothingTrimmed()
    ensures Trimmed("") == ""
  {
  }

  lemma {:induction false} TrimKeeps(s: string, ch: char)
    requires ch in s && !IsSpace(ch)
    ensures ch in Trimmed(s)
    decreases |s|
  {
    var i :| 0 <= i < |s| && s[i] == ch;
    if IsSpace(s[0]) {
      assert s[1..][i - 1] == ch;
      TrimKeeps(s[1..], ch);
    } else if IsSpace(s[|s| - 1]) {
      assert s[..|s| - 1][i] == ch;
      TrimKeeps(s[..|s| - 1], ch);
    }
  }

  /** No header is no range; several ranges at once, or one counted from the end, are never answered. */
  lemma SingleRangeOnly(header: string, blobSize: int)
    ensures ParseRange(header, blobSize).Absent? <==> header == ""
    ensures ',' in header[Min(6, |header|)..] && header != "" ==> ParseRange(header, blobSize) == Malformed
    ensures 6 < |header| && header[6] == '-' ==> ParseRange(header, blobSize) == Malformed
  {
    hide ToLongLong, IndexOf;
    if 6 < |header| {
      var spec := header[6..];
      if ',' in spec {
        TrimKeeps(spec, ',');
      }
      if spec[0] == '-' {
        DashStays(spec);
      }
    }
    hide Trimmed;
  }

  lemma {:induction false} DashStays(s: string)
    requires s != "" && s[0] == '-'
    ensures Trimmed(s) != "" && Trimmed(s)[0] == '-'
    decreases |s|
  {
    if IsSpace(s[|s| - 1]) {
      assert s[..|s| - 1][0] == s[0];
      DashStays(s[..|s| - 1]);
    }
  }

  /** Whatever header arrives, an accepted range is a non-empty part of the object. */
  lemma RangeInside(header: string, blobSize: int)
    ensures ParseRange(header, blobSize).Range? ==>
              var r := ParseRange(header, blobSize); 0 <= r.offset && r.length > 0 && r.offset + r.length <= blobSize
  {
  }

  datatype Response =
    | Full(data: Bytes)
    | Partial(data: Bytes, first: int, total: int)
    | BadRequest
    | Conflict
    | RangeNotSatisfiable(total: int)
    | PayloadTooLarge
    | ServerError

  /** The answer to a GET for an object of content `blob` (None: the object is missing). */
  function Answer(blob: Option<Bytes>, header: string): Response {
    if blob.None? || blob.value == [] then Conflict
    else
      var b := blob.value;
      match ParseRange(header, |b|)
      case Malformed => BadRequest
      case Unsatisfiable => RangeNotSatisfiable(|b|)
      case Absent => if |b| > MAX_SINGLE_GET_BYTES then PayloadTooLarge else Full(b)
      case Range(offset, length) =>
        RangeInside(header, |b|);
        if length > MAX_SINGLE_GET_BYTES then PayloadTooLarge
        else Partial(b[offset..offset + length], offset, |b|)
  }

  /** Answers a GET whose ticket was accepted and whose record is ready. */
  method HandleBlobGet(storage: LocalFileStorage, key: string, header: string, io: nat -> Io) returns (response: Response)
    requires IsHexLower(key, BLOB_KEY_LENGTH)
    // a disk that cannot be read turns an answer with data into a server error, and nothing else
    ensures var answer := Answer(if key in storage.blobs then Some(storage.blobs[key]) else None, header);
            response == if (answer.Full? || answer.Partial?) && !(io(0) == io(1) == io(2) == Done) then ServerError else answer
  {
    var blobSize := if storage.IsFinalized(key) then |storage.blobs[key]| else -1;
    if blobSize <= 0 {
      return Conflict;
    }
    RangeInside(header, blobSize);
    var range := ParseRange(header, blobSize);
    if range == Malformed {
      return BadRequest;
    }
    if range == Unsatisfiable {
      return RangeNotSatisfiable(blobSize);
    }
    var readOffset, readLength := 0, blobSize;
    if range == Absent {
      if blobSize > MAX_SINGLE_GET_BYTES {
        return PayloadTooLarge;
      }
    } else {
      readOffset, readLength := range.offset, range.length;
      if readLength > MAX_SINGLE_GET_BYTES {
        return PayloadTooLarge;
      }
    }
    var data := storage.ReadRange(key, readOffset, readLength, io);
    if |data| != readLength {
      return ServerError;
    }
    return if range == Absent then Full(data) else Partial(data, readOffset, blobSize);
  }

  /** The client's request for chunk i of an object of the declared layout is always answered with that chunk. */
  lemma ChunkRequestAnswered(blob: Bytes, chunkSize: int, chunkCount: int, i: nat)
    requires IsChunkingValid(|blob|, chunkSize, chunkCount) && i < chunkCount
    ensures var length := ExpectedChunkBytes(|blob|, chunkSize, chunkCount, i);
            length > 0 && i * chunkSize + length <= |blob|
            && Answer(Some(blob), PrintRange(i * chunkSize, length))
            == Partial(blob[i * chunkSize..i * chunkSize + length], i * chunkSize, |blob|)
  {
    LayoutPartitions(|blob|, chunkSize, chunkCount, i);
    RangeRoundTrip(i * chunkSize, ExpectedChunkBytes(|blob|, chunkSize, chunkCount, i), |blob|);
    hide ParseRange, PrintRange, CeilDiv, ChunkCountFor;
  }

  // ---- Uploading chunks ----

  /** A decimal path segment: digits only, at most 19 of them, within 64 bits. */
  function ParsePathNumber(text: string): Option<nat> {
    if text == "" || |text| > 19 || !Digits(text) then None
    else match DigitsValue(text)
      case None => None
      case Some(n) => if n <= INT64_MAX then Some(n) else None
  }

  function Pow10(k: nat): nat {
    if k == 0 then 1 else 10 * Pow10(k - 1)
  }

  lemma {:induction false} DecimalLength(n: nat, k: nat)
    requires k > 0 && n < Pow10(k)
    ensures |Decimal(n)| <= k
  {
    if n >= 10 {
      DecimalLength(n / 10, k - 1);
    }
  }

  /** Every number of 64 bits that the client writes into a path is read back. */
  lemma PathNumberRoundTrip(n: nat)
    requires n <= INT64_MAX
    ensures ParsePathNumber(Decimal(n)) == Some(n)
  {
    DecimalDigits(n);
    assert Pow10(19) == 10_000_000_000_000_000_000 by {
      assert Pow10(4) == 10_000;
      assert Pow10(8) == 100_000_000;
      assert Pow10(12) == 1_000_000_000_000;
      assert Pow10(16) == 10_000_000_000_000_000;
    }
    DecimalLength(n, 19);
  }

  datatype PutResponse = Stored | BadPath | NotInProgress | OutOfRange | TooLarge | WrongLength | NotStored

  /** Layout of the upload a ticket was accepted for; None when it is not in progress. */
  datatype UploadRecord = UploadRecord(key: string, cipherSize: int, chunkSize: int, chunkCount: int)

  /** Stores a chunk only at an index of the layout, and only at the length the layout gives it. */
  method HandleChunkPut(storage: LocalFileStorage, record: Option<UploadRecord>, indexText: string, body: Bytes, io: nat -> Io)
    returns (response: PutResponse)
    requires record.Some? ==> IsHexLower(record.value.key, BLOB_KEY_LENGTH)
    modifies storage
    ensures response == Stored ==>
              && record.Some? && ParsePathNumber(indexText).Some?
              && var r, i := record.value, ParsePathNumber(indexText).value;
                 && |body| == ExpectedChunkBytes(r.cipherSize, r.chunkSize, r.chunkCount, i) && 0 <= i < r.chunkCount
                 && storage.Chunks(r.key) == old(storage.Chunks(r.key))[i := body]
                 && storage.OthersUnchanged(r.key)
    ensures storage.blobs == old(storage.blobs)
    ensures response != Stored && record.Some? ==>
              && storage.Chunks(record.value.key) == old(storage.Chunks(record.value.key))
              && storage.OthersUnchanged(record.value.key)
    ensures record.None? ==> response in {BadPath, NotInProgress} && unchanged(storage)
    // each refusal has its reason, and they are looked for in this order
    ensures var number := ParsePathNumber(indexText);
            && (response == BadPath <==> number.None? || number.value >= MAX_CHUNK_COUNT)
            && (response == NotInProgress <==> response != BadPath && record.None?)
            && (response !in {BadPath, NotInProgress} ==>
                  var r := record.value;
                  var expected := ExpectedChunkBytes(r.cipherSize, r.chunkSize, r.chunkCount, number.value);
                  && (response == OutOfRange <==> expected < 0)
                  && (response == TooLarge <==> expected >= 0 && |body| > MAX_CHUNK_SIZE)
                  && (response == WrongLength <==> expected >= 0 && |body| <= MAX_CHUNK_SIZE && |body| != expected)
                  && (response == NotStored <==> |body| == expected && !(io(0) == io(1) == Done)))
    ensures Reliable(io) && record.Some? && ParsePathNumber(indexText).Some?
            && IsChunkingValid(record.value.cipherSize, record.value.chunkSize, record.value.chunkCount)
            && ParsePathNumber(indexText).value < record.value.chunkCount
            && |body| == ExpectedChunkBytes(record.value.cipherSize, record.value.chunkSize, record.value.chunkCount,
                                            ParsePathNumber(indexText).value)
            ==> response == Stored
  {
    var number := ParsePathNumber(indexText);
    if number.None? || number.value >= MAX_CHUNK_COUNT {
      return BadPath;
    }
    if record.None? {
      return NotInProgress;
    }
    var r, index := record.value, number.value;
    var expected := ExpectedChunkBytes(r.cipherSize, r.chunkSize, r.chunkCount, index);
    if expected < 0 {
      return OutOfRange;
    }
    LayoutPartitions(r.cipherSize, r.chunkSize, r.chunkCount, index);
    if |body| > MAX_CHUNK_SIZE {
      return TooLarge;
    }
    if |body| != expected {
      return WrongLength;
    }
    var stored := storage.PutChunk(r.key, index, body, io);
    return if stored then Stored else NotStored;
  }
}
