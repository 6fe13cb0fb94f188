// The persistent key/value cache (debgpt/cache.py): a dictionary from
// strings to strings over one database table whose rows hold the key, the
// compressed UTF-8 value and a time stamp; rows older than a day are
// dropped when the cache is opened.

module Cache {
  import opened Text

  /** One day, in the units of the integer clock the stamps use (seconds). */
  const Day := 86400

  /** The four magic bytes that open an lz4 frame. */
  const FrameMagic: seq<byte> := [0x04, 0x22, 0x4D, 0x18]

  /** Compression: a frame around the payload. The block encoding itself is
      not modelled; what matters to the cache is that it is lossless. */
  function Compress(data: seq<byte>): (r: seq<byte>)
    ensures |r| == |FrameMagic| + |data|
    ensures r[..|FrameMagic|] == FrameMagic
  {
    FrameMagic + data
  }

  /** Decompression fails on anything that is not a frame. */
  function Decompress(blob: seq<byte>): (r: Option<seq<byte>>)
    ensures r.Some? ==> Compress(r.value) == blob
    ensures |blob| < |FrameMagic| ==> r.None?
  {
    if |blob| >= |FrameMagic| && blob[..|FrameMagic|] == FrameMagic then Some(blob[|FrameMagic|..])
    else None
  }

  lemma CompressRoundTrip(data: seq<byte>)
    ensures Decompress(Compress(data)) == Some(data)
  {
    assert Compress(data)[|FrameMagic|..] == data;
  }

  /** What `__setitem__` stores for a value. */
  function EncodeValue(value: string): seq<byte> {
    Compress(Utf8Encode(value))
  }

  /** What `__getitem__` makes of a stored blob: a failure to decompress or
      to decode is an error that is not a `KeyError`. */
  function DecodeValue(blob: seq<byte>): (r: Result<string>)
    ensures r.Err? ==> r.error != KeyError
  {
    match Decompress(blob)
    case None => Err(Raised("corrupt frame"))
    case Some(data) =>
      match Utf8Decode(data)
      case None => Err(Raised("invalid utf-8"))
      case Some(s) => Ok(s)
  }

  /** The value round trip: what is stored for `value` reads back as
      `value`. */
  lemma ValueRoundTrip(value: string)
    ensures DecodeValue(EncodeValue(value)) == Ok(value)
  {
    CompressRoundTrip(Utf8Encode(value));
    Utf8RoundTrip(value);
  }

  /** One table row; the key is the map key. */
  datatype Row = Row(blob: seq<byte>, stamp: int)

  /** The rows that survive the clean-up at time `now`: exactly those
      stamped no earlier than one day before. */
  function Fresh(rows: map<string, Row>, now: int): (r: map<string, Row>)
    ensures r.Keys <= rows.Keys
    ensures forall k :: k in r ==> r[k] == rows[k] && rows[k].stamp >= now - Day
    ensures forall k :: k in rows && rows[k].stamp >= now - Day ==> k in r
  {
    map k | k in rows && rows[k].stamp >= now - Day :: rows[k]
  }

  /** The rows written by `update` with `other` at time `now`. */
  function Written(other: map<string, string>, now: int): (r: map<string, Row>)
    ensures r.Keys == other.Keys
    ensures forall k :: k in r ==> r[k] == Row(EncodeValue(other[k]), now)
  {
    map k | k in other :: Row(EncodeValue(other[k]), now)
  }

  /** The value `self[key]` yields over the given rows. */
  function LookupIn(rows: map<string, Row>, key: string): (r: Result<string>)
    ensures r == Err(KeyError) <==> key !in rows
  {
    if key in rows then DecodeValue(rows[key].blob) else Err(KeyError)
  }

  /** After `update`, the keys of `other` read back as `other`'s values
      and every other key reads as before. */
  lemma UpdatedLookups(base: map<string, Row>, other: map<string, string>, now: int)
    ensures forall k :: k in other ==> LookupIn(base + Written(other, now), k) == Ok(other[k])
    ensures forall k :: k !in other ==> LookupIn(base + Written(other, now), k) == LookupIn(base, k)
  {
    forall k | k in other
      ensures LookupIn(base + Written(other, now), k) == Ok(other[k])
    {
      ValueRoundTrip(other[k]);
    }
  }

  /** The part of `other` on the given keys. */
  function Only(other: map<string, string>, keys: set<string>): (r: map<string, string>)
    ensures r.Keys == other.Keys * keys
    ensures forall k :: k in r ==> r[k] == other[k]
  {
    map k | k in other && k in keys :: other[k]
  }

  /** Writing one more key of `other` is one more row replaced. */
  lemma WrittenStep(base: map<string, Row>, other: map<string, string>, done: set<string>, key: string, now: int)
    requires key in other
    ensures base + Written(Only(other, done + {key}), now)
      == (base + Written(Only(other, done), now))[key := Row(EncodeValue(other[key]), now)]
  {
  }

  class Cache {
    /** The table: key (the primary key) to compressed value and stamp. */
    var rows: map<string, Row>

    /** The value `self[key]` yields in the current state. */
    function Lookup(key: string): (r: Result<string>)
      reads this
      ensures r == Err(KeyError) <==> key !in rows
    {
      LookupIn(rows, key)
    }

    /** Opening the cache on the stored table at time `now` drops the
        expired rows. */
    constructor Open(stored: map<string, Row>, now: int)
      ensures rows == Fresh(stored, now)
    {
      rows := Fresh(stored, now);
    }

    /** `_cleanup_expired`. */
    method CleanupExpired(now: int)
      modifies this
      ensures rows == Fresh(old(rows), now)
    {
      rows := Fresh(rows, now);
    }

    /** `__setitem__`: insert or replace, with a fresh stamp; the value
        reads back unchanged and no other key is touched. */
    method SetItem(key: string, value: string, now: int)
      modifies this
      ensures rows == old(rows)[key := Row(EncodeValue(value), now)]
      ensures Lookup(key) == Ok(value)
      ensures forall k :: k != key ==> Lookup(k) == old(Lookup(k))
    {
      rows := rows[key := Row(EncodeValue(value), now)];
      ValueRoundTrip(value);
    }

    /** `__getitem__`. */
    method GetItem(key: string) returns (r: Result<string>)
      ensures r == Lookup(key)
      ensures key !in rows ==> r == Err(KeyError)
    {
      if key in rows {
        r := DecodeValue(rows[key].blob);
      } else {
        r := Err(KeyError);
      }
    }

    /** `__delitem__`: `KeyError` when no row was deleted; otherwise only
        that key goes. */
    method DelItem(key: string) returns (r: Result<()>)
      modifies this
      ensures key !in old(rows) ==> r == Err(KeyError) && rows == old(rows)
      ensures key in old(rows) ==> r == Ok(()) && rows == old(rows) - {key}
      ensures forall k :: k != key ==> Lookup(k) == old(Lookup(k))
    {
      if key !in rows {
        return Err(KeyError);
      }
      rows := rows - {key};
      return Ok(());
    }

    /** `__contains__`. */
    method Contains(key: string) returns (b: bool)
      ensures b <==> Lookup(key) != Err(KeyError)
    {
      b := key in rows;
    }

    /** `__len__`. */
    method Length() returns (n: nat)
      ensures n == |rows.Keys|
    {
      n := |rows.Keys|;
    }

    /** `clear`. */
    method Clear()
      modifies this
      ensures rows == map[]
      ensures forall k :: Lookup(k) == Err(KeyError)
    {
      rows := map[];
    }

    /** `get`: the default instead of a `KeyError`; other errors pass. */
    method Get(key: string, default: Option<string>) returns (r: Result<Option<string>>)
      ensures key !in rows ==> r == Ok(default)
      ensures key in rows && Lookup(key).Ok? ==> r == Ok(Some(Lookup(key).value))
      ensures key in rows && Lookup(key).Err? ==> r == Err(Lookup(key).error)
    {
      var v := GetItem(key);
      if v.Ok? {
        return Ok(Some(v.value));
      } else if v.error == KeyError {
        return Ok(default);
      }
      return Err(v.error);
    }

    /** `pop`: a present key's value is returned and its row deleted; a
        missing key yields the default and changes nothing. */
    method Pop(key: string, default: Option<string>) returns (r: Result<Option<string>>)
      modifies this
      ensures key !in old(rows) ==> r == Ok(default) && rows == old(rows)
      ensures key in old(rows) && old(Lookup(key)).Ok? ==>
        r == Ok(Some(old(Lookup(key)).value)) && rows == old(rows) - {key}
      ensures key in old(rows) && old(Lookup(key)).Err? ==>
        r == Err(old(Lookup(key)).error) && rows == old(rows)
    {
      var v := GetItem(key);
      if v.Err? {
        if v.error == KeyError {
          return Ok(default);
        }
        return Err(v.error);
      }
      var d := DelItem(key);
      return Ok(Some(v.value));
    }

    /** `popitem`: `KeyError` on an empty cache; otherwise exactly one row
        is removed and its key and value are returned. */
    method PopItem() returns (r: Result<(string, string)>)
      modifies this
      ensures old(rows) == map[] ==> r == Err(KeyError) && rows == old(rows)
      ensures r.Ok? ==> (r.value.0 in old(rows)
        && old(Lookup(r.value.0)) == Ok(r.value.1)
        && rows == old(rows) - {r.value.0})
      ensures r.Err? ==> rows == old(rows)
      ensures old(rows) != map[] ==> r.Ok? || r.error != KeyError
    {
      if rows == map[] {
        return Err(KeyError);
      }
      assert rows.Keys != {};
      var key :| key in rows;
      var v := DecodeValue(rows[key].blob);
      if v.Err? {
        return Err(v.error);
      }
      var d := DelItem(key);
      return Ok((key, v.value));
    }

    /** `setdefault`: an existing value is returned untouched; otherwise
        the default is stored and returned. Storing the absent default
        fails, since `None` has no `encode`. */
    method SetDefault(key: string, default: Option<string>, now: int) returns (r: Result<Option<string>>)
      modifies this
      ensures key in old(rows) ==> (rows == old(rows)
        && (Lookup(key).Ok? ==> r == Ok(Some(Lookup(key).value)))
        && (Lookup(key).Err? ==> r == Err(Lookup(key).error)))
      ensures key !in old(rows) && default.Some? ==>
        r == Ok(default) && rows == old(rows)[key := Row(EncodeValue(default.value), now)]
        && Lookup(key) == Ok(default.value)
      ensures key !in old(rows) && default.None? ==> r == Err(AttributeError) && rows == old(rows)
    {
      var present := Contains(key);
      if present {
        var v := GetItem(key);
        if v.Err? {
          return Err(v.error);
        }
        return Ok(Some(v.value));
      }
      if default.None? {
        return Err(AttributeError);
      }
      SetItem(key, default.value, now);
      return Ok(default);
    }

    /** The loop of `update`: one `__setitem__` per key of `other`. */
    method WriteAll(other: map<string, string>, now: int)
      modifies this
      ensures rows == old(rows) + Written(other, now)
    {
      var todo := other.Keys;
      ghost var done: set<string> := {};
      while todo != {}
        invariant todo <= other.Keys && done == other.Keys - todo
        invariant rows == old(rows) + Written(Only(other, done), now)
        decreases |todo|
      {
        var key :| key in todo;
        WrittenStep(old(rows), other, done, key, now);
        SetItem(key, other[key], now);
        todo := todo - {key};
        done := done + {key};
      }
      assert Only(other, done) == other;
    }

    /** `update`: every key of `other` ends up mapped to `other`'s value;
        keys outside `other` keep theirs. */
    method Update(other: map<string, string>, now: int)
      modifies this
      ensures rows == old(rows) + Written(other, now)
      ensures forall k :: k in other ==> Lookup(k) == Ok(other[k])
      ensures forall k :: k !in other ==> Lookup(k) == old(Lookup(k))
    {
      WriteAll(other, now);
      UpdatedLookups(old(rows), other, now);
    }
  }
}
