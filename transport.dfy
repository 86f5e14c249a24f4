/**
 * The transport record of the server: play state, position, tempo and time
 * signature, its normalisation (`clamp`) and the partial update that the
 * `POST /api/state` handler applies to it.
 */
module Transport {

  /** The eight fields of a transport record, as `asdict` returns them. */
  datatype Transport = Transport(
    playing: bool,
    bar: int,
    beat: int,
    bpm: real,
    ppq: real,
    tsNum: int,
    tsDen: int,
    tHost: real)

  /** The tempo a zero `bpm` is replaced with. */
  const DefaultBpm: real := 120.0

  /** A record built with the dataclass defaults except for the three fields given. */
  function WithDefaults(bpm: real, tsNum: int, tsDen: int): Transport
  {
    Transport(false, 1, 1, bpm, 0.0, tsNum, tsDen, 0.0)
  }

  /** What holds of every record once it is clamped. */
  predicate Normal(t: Transport)
  {
    t.bar >= 1 && t.beat >= 1 && t.bpm != 0.0 && t.tsNum >= 1 && t.tsDen >= 1
  }

  /** `max(1, n)`. */
  function AtLeastOne(n: int): (r: int)
    ensures r >= 1
    ensures n >= 1 ==> r == n
    ensures n < 1 ==> r == 1
  {
    if n >= 1 then n else 1
  }

  /** The record as `TransportState.clamp` leaves it. */
  function Clamped(t: Transport): (r: Transport)
    ensures Normal(r)
    ensures t.bar >= 1 ==> r.bar == t.bar
    ensures t.beat >= 1 ==> r.beat == t.beat
    ensures t.tsNum >= 1 ==> r.tsNum == t.tsNum
    ensures t.tsDen >= 1 ==> r.tsDen == t.tsDen
    ensures t.bar < 1 ==> r.bar == 1
    ensures t.beat < 1 ==> r.beat == 1
    ensures t.tsNum < 1 ==> r.tsNum == 1
    ensures t.tsDen < 1 ==> r.tsDen == 1
    ensures t.bpm == 0.0 ==> r.bpm == DefaultBpm
    ensures t.bpm != 0.0 ==> r.bpm == t.bpm
    ensures r.ppq == t.ppq
    ensures r.playing == t.playing && r.tHost == t.tHost
  {
    Transport(
      t.playing,
      AtLeastOne(t.bar),
      AtLeastOne(t.beat),
      if t.bpm != 0.0 then t.bpm else DefaultBpm,
      if t.ppq != 0.0 then t.ppq else 0.0,
      AtLeastOne(t.tsNum),
      AtLeastOne(t.tsDen),
      t.tHost)
  }

  /** Clamping changes a record exactly when the record is not normal. */
  lemma ClampFixesExactlyNormal(t: Transport)
    ensures Clamped(t) == t <==> Normal(t)
  {
  }

  lemma ClampIdempotent(t: Transport)
    ensures Clamped(Clamped(t)) == Clamped(t)
  {
  }

  /** What `state_payload` returns and leaves in the record: stamped with `now`, then clamped. */
  function Payload(t: Transport, now: real): (r: Transport)
    ensures Normal(r) && r.tHost == now
  {
    Clamped(t.(tHost := now))
  }

  /**
   * Two payloads with no update in between agree on every field but `t_host`,
   * which is the time supplied to the second call.
   */
  lemma PayloadTwice(t: Transport, first: real, second: real)
    ensures Payload(Payload(t, first), second) == Payload(t, first).(tHost := second)
  {
  }

  /** The `t_host` a record held before a payload has no influence on it. */
  lemma PayloadForgetsTime(t: Transport, stale: real, now: real)
    ensures Payload(t.(tHost := stale), now) == Payload(t, now)
  {
  }

  /** A value of a JSON update body, with the three kinds the transport fields take. */
  datatype FieldValue = Bool(b: bool) | Int(i: int) | Real(r: real)

  /** The fields an update body may set. */
  datatype Key = Playing | Bar | Beat | Bpm | Ppq | TsNum | TsDen

  /** The JSON key of each field. */
  function Name(k: Key): string
  {
    match k
    case Playing => "playing"
    case Bar => "bar"
    case Beat => "beat"
    case Bpm => "bpm"
    case Ppq => "ppq"
    case TsNum => "ts_num"
    case TsDen => "ts_den"
  }

  /** The keys of an update body the server copies into the record, in the order it visits them. */
  const Keys: seq<Key> := [Playing, Bar, Beat, Bpm, Ppq, TsNum, TsDen]

  /** True of a JSON key that names one of the recognised fields. */
  predicate Recognised(s: string)
  {
    exists k: Key :: Name(k) == s
  }

  /** A value of the JSON kind its field holds: a boolean, an integer, or a number. */
  predicate Fits(k: Key, v: FieldValue)
  {
    match k
    case Playing => v.Bool?
    case Bar | Beat | TsNum | TsDen => v.Int?
    case Bpm | Ppq => v.Int? || v.Real?
  }

  /** Every recognised key of the body carries a value that fits its field. */
  predicate Conforms(body: map<string, FieldValue>)
  {
    forall k: Key :: Name(k) in body ==> Fits(k, body[Name(k)])
  }

  function AsReal(v: FieldValue): real
    requires v.Int? || v.Real?
  {
    if v.Int? then v.i as real else v.r
  }

  /** `setattr(state, key, v)` for one of the recognised keys. */
  function SetField(t: Transport, k: Key, v: FieldValue): Transport
    requires Fits(k, v)
  {
    match k
    case Playing => t.(playing := v.b)
    case Bar => t.(bar := v.i)
    case Beat => t.(beat := v.i)
    case Bpm => t.(bpm := AsReal(v))
    case Ppq => t.(ppq := AsReal(v))
    case TsNum => t.(tsNum := v.i)
    case TsDen => t.(tsDen := v.i)
  }

  /** One turn of the update loop: the field is overwritten when the body has its key. */
  function Step(t: Transport, k: Key, body: map<string, FieldValue>): Transport
    requires Conforms(body)
  {
    if Name(k) in body then SetField(t, k, body[Name(k)]) else t
  }

  /** The record after the update loop has visited `keys`, in order. */
  function ApplyKeys(t: Transport, keys: seq<Key>, body: map<string, FieldValue>): Transport
    requires Conforms(body)
    decreases |keys|
  {
    if keys == [] then t else ApplyKeys(Step(t, keys[0], body), keys[1..], body)
  }

  /** The new value of an integer field: the body's value when the body has the key, the prior one otherwise. */
  function NewInt(prior: int, k: Key, body: map<string, FieldValue>): int
    requires Conforms(body)
  {
    if Name(k) in body && body[Name(k)].Int? then body[Name(k)].i else prior
  }

  function NewReal(prior: real, k: Key, body: map<string, FieldValue>): real
    requires Conforms(body)
  {
    if Name(k) in body && (body[Name(k)].Int? || body[Name(k)].Real?) then AsReal(body[Name(k)]) else prior
  }

  /** The partial update field by field: each recognised key that is present overwrites its field. */
  function Overlay(t: Transport, body: map<string, FieldValue>): Transport
    requires Conforms(body)
  {
    Transport(
      if Name(Playing) in body && body[Name(Playing)].Bool? then body[Name(Playing)].b else t.playing,
      NewInt(t.bar, Bar, body),
      NewInt(t.beat, Beat, body),
      NewReal(t.bpm, Bpm, body),
      NewReal(t.ppq, Ppq, body),
      NewInt(t.tsNum, TsNum, body),
      NewInt(t.tsDen, TsDen, body),
      t.tHost)
  }

  /** The key-by-key update loop computes the field-by-field overlay. */
  lemma UpdateLoopIsOverlay(t: Transport, body: map<string, FieldValue>)
    requires Conforms(body)
    ensures ApplyKeys(t, Keys, body) == Overlay(t, body)
  {
    var t1 := Step(t, Playing, body);
    var t2 := Step(t1, Bar, body);
    var t3 := Step(t2, Beat, body);
    var t4 := Step(t3, Bpm, body);
    var t5 := Step(t4, Ppq, body);
    var t6 := Step(t5, TsNum, body);
    var t7 := Step(t6, TsDen, body);
    assert ApplyKeys(t6, [TsDen], body) == t7;
    assert ApplyKeys(t5, [TsNum, TsDen], body) == t7;
    assert ApplyKeys(t4, [Ppq, TsNum, TsDen], body) == t7;
    assert ApplyKeys(t3, [Bpm, Ppq, TsNum, TsDen], body) == t7;
    assert ApplyKeys(t2, [Beat, Bpm, Ppq, TsNum, TsDen], body) == t7;
    assert ApplyKeys(t1, [Bar, Beat, Bpm, Ppq, TsNum, TsDen], body) == t7;
  }

  /** The field `k` of a record, as the JSON value `asdict` gives for it. */
  function Get(t: Transport, k: Key): FieldValue
  {
    match k
    case Playing => Bool(t.playing)
    case Bar => Int(t.bar)
    case Beat => Int(t.beat)
    case Bpm => Real(t.bpm)
    case Ppq => Real(t.ppq)
    case TsNum => Int(t.tsNum)
    case TsDen => Int(t.tsDen)
  }

  /** The value a field holds once `v` is stored in it: `bpm` and `ppq` hold numbers as reals. */
  function Stored(k: Key, v: FieldValue): FieldValue
    requires Fits(k, v)
  {
    if k == Bpm || k == Ppq then Real(AsReal(v)) else v
  }

  /**
   * The update overwrites exactly the fields whose key the body holds, each
   * with the body's value, and keeps the others and `t_host`.
   */
  lemma OverlayPointwise(t: Transport, body: map<string, FieldValue>, k: Key)
    requires Conforms(body)
    ensures Name(k) in body ==> Get(Overlay(t, body), k) == Stored(k, body[Name(k)])
    ensures Name(k) !in body ==> Get(Overlay(t, body), k) == Get(t, k)
    ensures Overlay(t, body).tHost == t.tHost
  {
  }

  /** A body without any recognised key, an empty one in particular, changes nothing. */
  lemma UpdateWithoutKnownKeys(t: Transport, body: map<string, FieldValue>)
    requires forall s :: s in body ==> !Recognised(s)
    ensures Conforms(body)
    ensures Overlay(t, body) == t
  {
  }

  /** Keys outside the recognised seven have no effect on the update. */
  lemma UpdateIgnoresUnknownKeys(t: Transport, body: map<string, FieldValue>, extra: map<string, FieldValue>)
    requires Conforms(body)
    requires forall s :: s in extra ==> !Recognised(s)
    ensures Conforms(body + extra)
    ensures Overlay(t, body + extra) == Overlay(t, body)
  {
  }

  /** Applying the same body twice is applying it once. */
  lemma UpdateIdempotent(t: Transport, body: map<string, FieldValue>)
    requires Conforms(body)
    ensures Overlay(Overlay(t, body), body) == Overlay(t, body)
  {
  }

  /** The mutable record the server keeps, updated in place. */
  class TransportState {
    var playing: bool
    var bar: int
    var beat: int
    var bpm: real
    var ppq: real
    var tsNum: int
    var tsDen: int
    var tHost: real

    /** The current contents of the record. */
    function Value(): Transport
      reads this
    {
      Transport(playing, bar, beat, bpm, ppq, tsNum, tsDen, tHost)
    }

    /** `TransportState(bpm=..., ts_num=..., ts_den=...)`: the other fields take their defaults. */
    constructor (bpm: real, tsNum: int, tsDen: int)
      ensures Value() == WithDefaults(bpm, tsNum, tsDen)
    {
      playing := false;
      bar := 1;
      beat := 1;
      this.bpm := bpm;
      ppq := 0.0;
      this.tsNum := tsNum;
      this.tsDen := tsDen;
      tHost := 0.0;
    }

    /** `clamp`: normalises the record in place. */
    method Clamp()
      modifies this
      ensures Value() == Clamped(old(Value()))
      ensures Normal(Value())
    {
      bar := AtLeastOne(bar);
      beat := AtLeastOne(beat);
      bpm := if bpm != 0.0 then bpm else DefaultBpm;
      ppq := if ppq != 0.0 then ppq else 0.0;
      tsNum := AtLeastOne(tsNum);
      tsDen := AtLeastOne(tsDen);
    }

    /** `setattr(self, key, v)` for one recognised key. */
    method SetAttr(k: Key, v: FieldValue)
      requires Fits(k, v)
      modifies this
      ensures Value() == SetField(old(Value()), k, v)
    {
      match k
      case Playing => playing := v.b;
      case Bar => bar := v.i;
      case Beat => beat := v.i;
      case Bpm => bpm := AsReal(v);
      case Ppq => ppq := AsReal(v);
      case TsNum => tsNum := v.i;
      case TsDen => tsDen := v.i;
    }
  }
}
