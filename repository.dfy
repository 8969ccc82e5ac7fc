/** The job record store: each job is a Redis hash of string fields under
    the key `job:<id>`; records are written field by field through a
    per-key text encoding and read back through its inverse. */
module Repository {
  import opened Common
  import opened PyValues

  /** A Redis keyspace of hashes: key to field to text. */
  type Store = map<string, map<string, string>>

  /** `json.dumps` and `json.loads` (the latter `None` where it raises). */
  datatype JsonCodec = JsonCodec(dumps: Value -> string, loads: string -> Option<Value>)

  /** A dictionary or a list. */
  predicate Structured(v: Value)
  {
    v.Dict? || v.List?
  }

  /** What the model assumes of the JSON library: a dictionary or list is
      read back as itself, and its text is never empty. */
  ghost predicate Lossless(codec: JsonCodec)
  {
    forall v :: Structured(v) ==> codec.loads(codec.dumps(v)) == Some(v) && codec.dumps(v) != ""
  }

  function JobKey(jobId: string): string
  {
    "job:" + jobId
  }

  lemma JobKeyInjective(a: string, b: string)
    requires a != b
    ensures JobKey(a) != JobKey(b)
  {
    assert JobKey(a)[4..] == a && JobKey(b)[4..] == b;
  }

  /** Fields decoded as JSON, and fields decoded as integers. */
  predicate IsJsonField(key: string)
  {
    key == "pipeline_config" || key == "result"
  }

  predicate IsTimeField(key: string)
  {
    key == "created_at" || key == "updated_at"
  }

  // ---------------------------------------------------------------------
  // `_serialize` / `_deserialize`
  // ---------------------------------------------------------------------

  /** One value of `_serialize`: containers as JSON, None as "", anything
      else as `str(value)`. */
  function Encode(codec: JsonCodec, v: Value): string
  {
    match v
    case Dict(_) => codec.dumps(v)
    case List(_) => codec.dumps(v)
    case Null => ""
    case _ => ScalarText(v)
  }

  /** One field of `_deserialize`; `None` where `json.loads` or `int` raises. */
  function Decode(codec: JsonCodec, key: string, text: string): Option<Value>
  {
    if text == "" then Some(Null)
    else if IsJsonField(key) then codec.loads(text)
    else if IsTimeField(key) then
      match ParseInt(text)
      case Some(i) => Some(Int(i))
      case None => None
    else Some(Str(text))
  }

  function Serialize(codec: JsonCodec, data: Record): (r: map<string, string>)
    ensures r.Keys == data.Keys
    ensures forall k :: k in r ==> r[k] == Encode(codec, data[k])
  {
    map k | k in data :: Encode(codec, data[k])
  }

  predicate Decodable(codec: JsonCodec, raw: map<string, string>)
  {
    forall k :: k in raw ==> Decode(codec, k, raw[k]).Some?
  }

  function DecodeField(codec: JsonCodec, raw: map<string, string>, k: string): Value
    requires k in raw && Decode(codec, k, raw[k]).Some?
  {
    Decode(codec, k, raw[k]).value
  }

  /** `_deserialize`: every field decoded on its own; `None` when any raises. */
  function Deserialize(codec: JsonCodec, raw: map<string, string>): (r: Option<Record>)
    ensures r.Some? <==> Decodable(codec, raw)
    ensures r.Some? ==> r.value.Keys == raw.Keys
    ensures r.Some? ==> forall k :: k in raw ==> Decode(codec, k, raw[k]) == Some(r.value[k])
  {
    if Decodable(codec, raw) then Some(map k | k in raw :: DecodeField(codec, raw, k)) else None
  }

  /** The fields whose value survives a write and a read: None anywhere,
      integers under the timestamp fields, non-empty strings under ordinary
      fields, and dictionaries or lists under the JSON fields. */
  predicate RoundTrips(key: string, v: Value)
  {
    || v.Null?
    || (v.Int? && IsTimeField(key))
    || (v.Str? && v.s != "" && !IsJsonField(key) && !IsTimeField(key))
    || (Structured(v) && IsJsonField(key))
  }

  predicate AllRoundTrip(rec: Record)
  {
    forall k :: k in rec ==> RoundTrips(k, rec[k])
  }

  lemma FieldRoundTrip(codec: JsonCodec, key: string, v: Value)
    requires Lossless(codec) && RoundTrips(key, v)
    ensures Decode(codec, key, Encode(codec, v)) == Some(v)
  {
    if v.Int? {
      IntTextRoundTrip(v.i);
    }
  }

  /** Serializing then deserializing gives back every field that round-trips. */
  lemma {:induction false} SerializeRoundTrip(codec: JsonCodec, rec: Record)
    requires Lossless(codec) && AllRoundTrip(rec)
    ensures Deserialize(codec, Serialize(codec, rec)) == Some(rec)
  {
    var raw := Serialize(codec, rec);
    forall k | k in raw ensures Decode(codec, k, raw[k]) == Some(rec[k]) {
      FieldRoundTrip(codec, k, rec[k]);
    }
    var back := Deserialize(codec, raw);
    assert back.Some?;
    assert back.value == rec;
  }

  /** An empty string is stored as "" and read back as None, whatever the field. */
  lemma EmptyStringReadsAsNone(codec: JsonCodec, key: string)
    ensures Decode(codec, key, Encode(codec, Str(""))) == Some(Null)
  {
  }

  /** An integer under an ordinary field is read back as its decimal text. */
  lemma IntUnderOrdinaryFieldReadsAsText(codec: JsonCodec, key: string, i: int)
    requires !IsJsonField(key) && !IsTimeField(key)
    ensures Decode(codec, key, Encode(codec, Int(i))) == Some(Str(IntText(i)))
  {
    IntTextRoundTrip(i);
  }

  // ---------------------------------------------------------------------
  // The store
  // ---------------------------------------------------------------------

  /** `HGETALL key`: the empty hash when the key is absent. */
  function HGetAll(store: Store, key: string): map<string, string>
  {
    if key in store then store[key] else map[]
  }

  /** `HSET key mapping`: the given fields are set, the others are kept. */
  function HSet(store: Store, key: string, fields: map<string, string>): (r: Store)
    ensures r.Keys == store.Keys + {key}
    ensures r[key].Keys == HGetAll(store, key).Keys + fields.Keys
    ensures forall f :: f in fields ==> r[key][f] == fields[f]
    ensures forall f :: f in HGetAll(store, key) && f !in fields ==> r[key][f] == HGetAll(store, key)[f]
    ensures forall k :: k in store && k != key ==> r[k] == store[k]
  {
    store[key := HGetAll(store, key) + fields]
  }

  /** The payload `create_job` writes: defaults first, the caller's fields
      spread over them. */
  function CreatePayload(data: Record, now: int): (p: Record)
    ensures p.Keys == data.Keys + {"status", "created_at", "updated_at"}
    ensures forall k :: k in data ==> p[k] == data[k]
    ensures "status" !in data ==> p["status"] == Str("QUEUED")
    ensures "created_at" !in data ==> p["created_at"] == Int(now)
    ensures "updated_at" !in data ==> p["updated_at"] == Int(now)
  {
    map["status" := Str("QUEUED"), "created_at" := Int(now), "updated_at" := Int(now)] + data
  }

  /** The payload `update_job` writes: the time, then the caller's fields. */
  function UpdatePayload(data: Record, now: int): (p: Record)
    ensures p.Keys == data.Keys + {"updated_at"}
    ensures forall k :: k in data ==> p[k] == data[k]
    ensures "updated_at" !in data ==> p["updated_at"] == Int(now)
  {
    map["updated_at" := Int(now)] + data
  }

  function Create(codec: JsonCodec, store: Store, jobId: string, data: Record, now: int): Store
  {
    HSet(store, JobKey(jobId), Serialize(codec, CreatePayload(data, now)))
  }

  function Update(codec: JsonCodec, store: Store, jobId: string, data: Record, now: int): Store
  {
    HSet(store, JobKey(jobId), Serialize(codec, UpdatePayload(data, now)))
  }

  /** What `get_job` yields: nothing for an empty hash, the decoded record,
      or an exception from `json.loads` or `int`. */
  datatype Lookup = Absent | Found(record: Record) | Undecodable

  function Fetch(codec: JsonCodec, store: Store, jobId: string): (r: Lookup)
    ensures r.Absent? <==> |HGetAll(store, JobKey(jobId))| == 0
    ensures r.Found? ==> r.record.Keys == HGetAll(store, JobKey(jobId)).Keys && |r.record| > 0
  {
    var raw := HGetAll(store, JobKey(jobId));
    if |raw| == 0 then Absent
    else match Deserialize(codec, raw)
      case None => Undecodable
      case Some(rec) =>
        assert rec.Keys == raw.Keys;
        Found(rec)
  }

  /** A write to one job leaves every other job's lookup as it was. */
  lemma WriteIsolatesJobs(codec: JsonCodec, store: Store, a: string, b: string, fields: map<string, string>)
    requires a != b
    ensures Fetch(codec, HSet(store, JobKey(a), fields), b) == Fetch(codec, store, b)
  {
    JobKeyInjective(a, b);
    var k, s2 := JobKey(b), HSet(store, JobKey(a), fields);
    if k in store {
      assert k in s2 && s2[k] == store[k];
    } else {
      assert k !in s2;
    }
    assert HGetAll(s2, k) == HGetAll(store, k);
  }

  /** Decoding a merged hash merges the decoded records. */
  lemma {:induction false} DeserializeMerge(codec: JsonCodec, raw: map<string, string>, rec: Record, data: Record)
    requires Lossless(codec) && AllRoundTrip(data)
    requires Deserialize(codec, raw) == Some(rec)
    ensures Deserialize(codec, raw + Serialize(codec, data)) == Some(rec + data)
  {
    var ser := Serialize(codec, data);
    var merged := raw + ser;
    forall k | k in merged ensures Decode(codec, k, merged[k]) == Some((rec + data)[k]) {
      if k in ser {
        FieldRoundTrip(codec, k, data[k]);
      }
    }
    var back := Deserialize(codec, merged);
    assert back.Some?;
    assert back.value == rec + data;
  }

  /** A job created in an empty slot reads back as its payload, when every
      field of the payload survives the encoding. */
  lemma CreateThenFetch(codec: JsonCodec, store: Store, jobId: string, data: Record, now: int)
    requires Lossless(codec) && JobKey(jobId) !in store
    requires AllRoundTrip(CreatePayload(data, now))
    ensures Fetch(codec, Create(codec, store, jobId, data, now), jobId) == Found(CreatePayload(data, now))
  {
    var payload := CreatePayload(data, now);
    DeserializeMerge(codec, map[], map[], payload);
    assert map[] + Serialize(codec, payload) == Serialize(codec, payload);
    assert map[] + payload == payload;
    assert "status" in Serialize(codec, payload);
  }

  /** Updating a readable job reads back as the old record with the new
      fields merged over it; fields not written keep their values. */
  lemma UpdateThenFetch(codec: JsonCodec, store: Store, jobId: string, rec: Record, data: Record, now: int)
    requires Lossless(codec) && Fetch(codec, store, jobId) == Found(rec)
    requires AllRoundTrip(UpdatePayload(data, now))
    ensures Fetch(codec, Update(codec, store, jobId, data, now), jobId) == Found(rec + UpdatePayload(data, now))
  {
    var payload := UpdatePayload(data, now);
    DeserializeMerge(codec, HGetAll(store, JobKey(jobId)), rec, payload);
    assert "updated_at" in Serialize(codec, payload);
  }

  /** The Redis-backed repository. */
  class JobRepository {
    var store: Store
    const codec: JsonCodec

    constructor(codec: JsonCodec, store: Store)
      ensures this.codec == codec && this.store == store
    {
      this.codec := codec;
      this.store := store;
    }

    /** `create_job`: status QUEUED and both timestamps set to `now`,
        overridden by any of the caller's fields. */
    method CreateJob(jobId: string, data: Record, now: int)
      modifies this
      ensures store == Create(codec, old(store), jobId, data, now)
    {
      var payload := CreatePayload(data, now);
      store := HSet(store, JobKey(jobId), Serialize(codec, payload));
    }

    /** `update_job`: the time and the given fields, merged into the hash. */
    method UpdateJob(jobId: string, data: Record, now: int)
      modifies this
      ensures store == Update(codec, old(store), jobId, data, now)
    {
      var payload := UpdatePayload(data, now);
      store := HSet(store, JobKey(jobId), Serialize(codec, payload));
    }

    /** `get_job`. */
    method GetJob(jobId: string) returns (r: Lookup)
      ensures r == Fetch(codec, store, jobId)
    {
      var raw := HGetAll(store, JobKey(jobId));
      if |raw| == 0 {
        return Absent;
      }
      var decoded := Deserialize(codec, raw);
      if decoded.None? {
        return Undecodable;
      }
      return Found(decoded.value);
    }
  }
}
