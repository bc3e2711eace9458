/** `bangumi_tracker/torrent.py`: the `Torrent` record and how `TorrentFetcher` turns decoded
    metainfo into one. The HTTP request and the bencode decoder are outside the model: the
    fetcher's result arrives as an already decoded value, or as the exception fetching raised. */
module Torrents {
  import opened Results
  import opened Bencode

  /** A SHA-1 digest: twenty bytes. */
  type Digest = d: seq<uint8> | |d| == 20
    witness [0, 0, 0, 0, 0, 0, 0, 0, 0, 0, 0, 0, 0, 0, 0, 0, 0, 0, 0, 0]

  /** Foreign code the fetcher calls: `bencodepy.encode`, `hashlib.sha1(...).digest()` and
      `bytes.decode("utf-8", errors="replace")`, which never raises. */
  datatype Codecs = Codecs(
    encode: Value -> seq<uint8>,
    sha1: seq<uint8> -> Digest,
    decodeUtf8: seq<uint8> -> string)
  {
    /** The one fact the model needs of the decoder: `b"".decode(...) == ""`. */
    predicate Valid() {
      decodeUtf8([]) == []
    }
  }

  /** The `Torrent` dataclass; `None` fields are unknown. */
  datatype Torrent = Torrent(url: string, size: Option<int>, hash: Option<string>, name: Option<string>)

  /** A decoded top-level dictionary. */
  type Meta = seq<(seq<uint8>, Value)>

  const InfoKey: seq<uint8> := [0x69, 0x6e, 0x66, 0x6f]                // b"info"
  const LengthKey: seq<uint8> := [0x6c, 0x65, 0x6e, 0x67, 0x74, 0x68]  // b"length"
  const NameKey: seq<uint8> := [0x6e, 0x61, 0x6d, 0x65]                // b"name"
  const FilesKey: seq<uint8> := [0x66, 0x69, 0x6c, 0x65, 0x73]         // b"files"

  /** A lower-case hexadecimal digit, as `hexdigest` writes them. */
  predicate IsHexDigit(c: char) {
    '0' <= c <= '9' || 'a' <= c <= 'f'
  }

  function HexDigit(d: int): (c: char)
    requires 0 <= d < 16
    ensures IsHexDigit(c)
  {
    if d < 10 then ('0' as int + d) as char else ('a' as int + d - 10) as char
  }

  /** `.hexdigest()`: two lower-case hexadecimal digits per byte, high nibble first. */
  function Hex(b: seq<uint8>): (s: string)
    ensures |s| == 2 * |b|
    ensures forall k :: 0 <= k < |s| ==> IsHexDigit(s[k])
  {
    if b == [] then "" else [HexDigit(b[0] as int / 16), HexDigit(b[0] as int % 16)] + Hex(b[1..])
  }

  function HexValue(c: char): (v: int)
    ensures 0 <= v < 16
  {
    if '0' <= c <= '9' then c as int - '0' as int
    else if 'a' <= c <= 'f' then c as int - 'a' as int + 10
    else 0
  }

  /** `bytes.fromhex(s)` on lower-case digits: the inverse of `Hex`. */
  function Unhex(s: string): seq<uint8> {
    if |s| < 2 then [] else [(HexValue(s[0]) * 16 + HexValue(s[1])) as uint8] + Unhex(s[2..])
  }

  /** Hex encoding loses nothing: two different digests never share a hash string. */
  lemma {:induction false} UnhexHex(b: seq<uint8>)
    ensures Unhex(Hex(b)) == b
  {
    if b != [] {
      var s := Hex(b);
      assert s[2..] == Hex(b[1..]);
      UnhexHex(b[1..]);
      var x := b[0] as int;
      assert HexValue(HexDigit(x / 16)) == x / 16;
      assert HexValue(HexDigit(x % 16)) == x % 16;
    }
  }

  /** The type test in `fetch` (torrent.py:30-31): only a dictionary is metadata. */
  function CheckMetadata(decoded: Result<Value, Error>): (r: Result<Meta, Error>)
    ensures r.Ok? <==> decoded.Ok? && decoded.value.Dict?
    ensures r.Ok? ==> decoded.value == Dict(r.value)
    ensures decoded.Err? ==> r == Err(decoded.error)
    ensures decoded.Ok? && !decoded.value.Dict? ==> r == Err(UnexpectedMetadataFormat)
  {
    match decoded
    case Err(e) => Err(e)
    case Ok(Dict(meta)) => Ok(meta)
    case Ok(_) => Err(UnexpectedMetadataFormat)
  }

  /** `_calculate_hash`: the info-hash of BEP 3, the SHA-1 of the bencoding of `info`, in hex.
      `info` must be present and be bytes, a list or a dictionary. */
  function CalculateHash(meta: Meta, codecs: Codecs): (r: Result<string, Error>)
    ensures r.Ok? <==> Get(meta, InfoKey).Some? && !Get(meta, InfoKey).value.Int?
    ensures r.Err? ==> r.error == MissingInfo
    ensures r.Ok? ==> |r.value| == 40 && forall k :: 0 <= k < 40 ==> IsHexDigit(r.value[k])
    ensures r.Ok? ==> Unhex(r.value) == codecs.sha1(codecs.encode(Get(meta, InfoKey).value))
  {
    match Get(meta, InfoKey)
    case Some(info) =>
      if info.Int? then Err(MissingInfo)
      else
        var digest := codecs.sha1(codecs.encode(info));
        UnhexHex(digest);
        Ok(Hex(digest))
    case None => Err(MissingInfo)
  }

  /** One item of a `length` list, as `item.get(b"length", 0)` inside `sum` treats it. */
  function ItemLength(item: Value): Result<int, Error> {
    match item
    case Dict(entries) =>
      (match GetOr(entries, LengthKey, Int(0))
       case Int(n) => Ok(n)
       case _ => Err(LengthItemNotInt))
    case _ => Err(LengthItemNotDict)
  }

  /** `sum(item.get(b"length", 0) for item in items)`, left to right; the first bad item raises. */
  function SumLengths(items: seq<Value>): (r: Result<int, Error>)
    ensures r.Ok? <==> forall k :: 0 <= k < |items| ==> ItemLength(items[k]).Ok?
    ensures r.Err? ==> exists k :: 0 <= k < |items| && ItemLength(items[k]) == Err(r.error) &&
                                   forall j :: 0 <= j < k ==> ItemLength(items[j]).Ok?
  {
    if items == [] then Ok(0)
    else
      match ItemLength(items[0])
      case Err(e) => Err(e)
      case Ok(n) =>
        var rest := SumLengths(items[1..]);
        assert forall k :: 1 <= k < |items| ==> items[k] == items[1..][k - 1];
        match rest
        case Err(e) => Err(e)
        case Ok(m) => Ok(n + m)
  }

  /** `_extract_size`: the value under `info`'s `length` key, 0 when it is absent, the sum of the
      items' `length` values when it is a list. The `files` key is never read. */
  function ExtractSize(meta: Meta): (r: Result<int, Error>)
    ensures !(Get(meta, InfoKey).Some? && Get(meta, InfoKey).value.Dict?) ==> r == Err(MissingInfo)
  {
    match Get(meta, InfoKey)
    case Some(Dict(info)) =>
      (match GetOr(info, LengthKey, Int(0))
       case Int(n) => Ok(n)
       case List(items) => SumLengths(items)
       case _ => Err(LengthNotIntOrList))
    case _ => Err(MissingInfo)
  }

  /** `_extract_name`: `info`'s `name` decoded as UTF-8 with replacement, "" when absent. */
  function ExtractName(meta: Meta, codecs: Codecs): (r: Result<string, Error>)
    ensures r.Ok? <==> Get(meta, InfoKey).Some? && Get(meta, InfoKey).value.Dict? &&
                       GetOr(Get(meta, InfoKey).value.entries, NameKey, Bytes([])).Bytes?
  {
    match Get(meta, InfoKey)
    case Some(Dict(info)) =>
      (match GetOr(info, NameKey, Bytes([]))
       case Bytes(b) => Ok(codecs.decodeUtf8(b))
       case _ => Err(NameNotBytes))
    case _ => Err(MissingInfo)
  }

  /** `fetch_meta`: the fetched metadata checked, then size, hash and name in this order, the
      first exception winning. */
  function FetchMeta(url: string, decoded: Result<Value, Error>, codecs: Codecs): (r: Result<Torrent, Error>)
    ensures r.Ok? ==> r.value.url == url && r.value.size.Some? && r.value.hash.Some? && r.value.name.Some?
  {
    var meta :- CheckMetadata(decoded);
    var size :- ExtractSize(meta);
    var hash :- CalculateHash(meta, codecs);
    var name :- ExtractName(meta, codecs);
    Ok(Torrent(url, Some(size), Some(hash), Some(name)))
  }

  /** `info` holds a dictionary (as the `Get` lookup sees it). */
  predicate InfoIsDict(meta: Meta) {
    Get(meta, InfoKey).Some? && Get(meta, InfoKey).value.Dict?
  }

  /** `fetch_meta` succeeds exactly when the metadata is a dictionary whose `info` is a
      dictionary with a readable size and name; the torrent then carries the derived values. */
  lemma FetchMetaSucceeds(url: string, decoded: Result<Value, Error>, codecs: Codecs)
    ensures FetchMeta(url, decoded, codecs).Ok? <==>
      decoded.Ok? && decoded.value.Dict? && InfoIsDict(decoded.value.entries) &&
      ExtractSize(decoded.value.entries).Ok? && ExtractName(decoded.value.entries, codecs).Ok?
    ensures FetchMeta(url, decoded, codecs).Ok? ==>
      var meta := decoded.value.entries;
      FetchMeta(url, decoded, codecs).value ==
        Torrent(url, Some(ExtractSize(meta).value), Some(CalculateHash(meta, codecs).value),
                Some(ExtractName(meta, codecs).value))
  {
  }

  /** Because the size is computed first, metadata whose `info` is not a dictionary fails with
      `MissingInfo` even where a hash could be computed (bytes or a list). */
  lemma FetchMetaNeedsInfoDict(url: string, meta: Meta, codecs: Codecs)
    requires !InfoIsDict(meta)
    ensures FetchMeta(url, Ok(Dict(meta)), codecs) == Err(MissingInfo)
  {
  }

  lemma {:induction false} GetReplaceOther(front: Meta, back: Meta, k: seq<uint8>, v: Value, v': Value, key: seq<uint8>)
    requires k != key
    ensures Get(front + [(k, v)] + back, key) == Get(front + [(k, v')] + back, key)
  {
    if front == [] {
      assert [(k, v)] + back == [(k, v)] + back;
      assert ([(k, v)] + back)[1..] == back && ([(k, v')] + back)[1..] == back;
    } else {
      assert (front + [(k, v)] + back)[1..] == front[1..] + [(k, v)] + back;
      assert (front + [(k, v')] + back)[1..] == front[1..] + [(k, v')] + back;
      GetReplaceOther(front[1..], back, k, v, v', key);
    }
  }

  /** Changing the value of any top-level key other than `info` changes neither the hash nor
      anything else `fetch_meta` returns. */
  lemma FetchMetaIgnoresOtherKeys(url: string, front: Meta, back: Meta, k: seq<uint8>, v: Value, v': Value, codecs: Codecs)
    requires k != InfoKey
    ensures CalculateHash(front + [(k, v)] + back, codecs) == CalculateHash(front + [(k, v')] + back, codecs)
    ensures FetchMeta(url, Ok(Dict(front + [(k, v)] + back)), codecs) ==
            FetchMeta(url, Ok(Dict(front + [(k, v')] + back)), codecs)
  {
    GetReplaceOther(front, back, k, v, v', InfoKey);
  }

  /** A non-dictionary top-level value is rejected, whatever it holds. */
  lemma FetchMetaRejectsNonDict(url: string, v: Value, codecs: Codecs)
    requires !v.Dict?
    ensures FetchMeta(url, Ok(v), codecs) == Err(UnexpectedMetadataFormat)
  {
  }

  /** An integer `length` is returned unchanged. */
  lemma SizeOfInteger(meta: Meta, info: Meta, n: int)
    requires Get(meta, InfoKey) == Some(Dict(info))
    requires Get(info, LengthKey) == Some(Int(n))
    ensures ExtractSize(meta) == Ok(n)
  {
  }

  /** A missing `length` counts as 0 rather than failing. */
  lemma SizeWhenAbsent(meta: Meta, info: Meta)
    requires Get(meta, InfoKey) == Some(Dict(info))
    requires Get(info, LengthKey).None?
    ensures ExtractSize(meta) == Ok(0)
  {
  }

  /** `length` holding bytes or a dictionary raises. */
  lemma SizeRejectsOtherTypes(meta: Meta, info: Meta, v: Value)
    requires Get(meta, InfoKey) == Some(Dict(info))
    requires Get(info, LengthKey) == Some(v) && (v.Bytes? || v.Dict?)
    ensures ExtractSize(meta) == Err(LengthNotIntOrList)
  {
  }

  /** A list `length` is the sum of its items' `length` values, failing as the sum does. */
  lemma SizeOfList(meta: Meta, info: Meta, items: seq<Value>)
    requires Get(meta, InfoKey) == Some(Dict(info))
    requires Get(info, LengthKey) == Some(List(items))
    ensures ExtractSize(meta) == SumLengths(items)
  {
  }

  /** The sum of a concatenation is the sum of the parts. */
  lemma {:induction false} SumLengthsAppend(a: seq<Value>, b: seq<Value>, x: int, y: int)
    requires SumLengths(a) == Ok(x) && SumLengths(b) == Ok(y)
    ensures SumLengths(a + b) == Ok(x + y)
  {
    if a == [] {
      assert a + b == b;
    } else {
      assert (a + b)[0] == a[0] && (a + b)[1..] == a[1..] + b;
      var n := ItemLength(a[0]).value;
      SumLengthsAppend(a[1..], b, x - n, y);
    }
  }

  /** The sum counts an item with an integer `length` as that integer, and one without a
      `length` key as 0; an empty list sums to 0. */
  lemma SumLengthsItems(entries: Meta, n: int)
    ensures SumLengths([]) == Ok(0)
    ensures Get(entries, LengthKey) == Some(Int(n)) ==> SumLengths([Dict(entries)]) == Ok(n)
    ensures Get(entries, LengthKey).None? ==> SumLengths([Dict(entries)]) == Ok(0)
  {
    assert [Dict(entries)][1..] == [];
  }

  /** A multi-file `info` (a `files` list and no `length`) has size 0 in this code. */
  lemma SizeOfMultiFileInfo(codecs: Codecs)
    ensures var file := (l: int) => Dict([(LengthKey, Int(l))]);
            var info := Dict([(FilesKey, List([file(10), file(20), file(30)]))]);
            ExtractSize([(InfoKey, info)]) == Ok(0)
  {
  }

  /** A missing `name` gives "". */
  lemma NameWhenAbsent(meta: Meta, info: Meta, codecs: Codecs)
    requires codecs.Valid()
    requires Get(meta, InfoKey) == Some(Dict(info))
    requires Get(info, NameKey).None?
    ensures ExtractName(meta, codecs) == Ok("")
  {
  }

  /** A bytes `name` never raises, whatever bytes it holds: invalid UTF-8 is replaced. */
  lemma NameOfBytes(meta: Meta, info: Meta, b: seq<uint8>, codecs: Codecs)
    requires Get(meta, InfoKey) == Some(Dict(info))
    requires Get(info, NameKey) == Some(Bytes(b))
    ensures ExtractName(meta, codecs) == Ok(codecs.decodeUtf8(b))
  {
  }
}
