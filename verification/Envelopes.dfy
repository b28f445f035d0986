/// The envelope's JSON layout.
///
/// What other libraries do is a parameter: the texts of ids, the metadata
/// object, the payload's own document and the sets of known flags and kinds.

module Envelopes {
  import opened Options
  import opened Timestamps

  // ----- data -------------------------------------------------------------------------------

  datatype Json =
    | Null
    | Bool(b: bool)
    | Number(n: int)
    | Str(s: string)
    | Arr(items: seq<Json>)
    | Obj(fields: map<string, Json>)

  type Fields = map<string, Json>
  type Ulid = nat
  type Metadata = map<string, string>

  datatype Cell = Cell(kind: string, body: Json)

  datatype Times = Times(created: Ticks, published: Option<Ticks>, received: Option<Ticks>, delivered: Option<Ticks>, failed: Option<Ticks>)

  datatype Envelope = Envelope(
    id: Ulid,
    flags: set<string>,
    metadata: Metadata,
    times: Times,
    correlation: Option<Ulid>,
    causation: Option<Ulid>,
    payload: Option<Cell>)

  /// `Invalid`, `KindMismatch` and `BadPayload` are parcel exceptions, `TypeError`
  /// is the JSON library's. `Undefined` is a timestamp whose conversion overflows.
  datatype Error = NoPayload | Invalid | KindMismatch | BadPayload | TypeError | Undefined

  datatype Result<+T> = Ok(value: T) | Err(error: Error)

  datatype Codec = Codec(
    ulidText: Ulid -> string,
    ulidParse: string -> Option<Ulid>,
    metaTo: Metadata -> Fields,
    metaFrom: Fields -> Metadata,
    cellTo: Cell -> Json,
    cellFrom: (set<string>, Json) -> Option<Cell>,
    knownFlags: set<string>,
    knownKinds: set<string>)

  /// The parts are inverses, and a decoded payload is of a registered kind.
  ghost predicate Faithful(c: Codec) {
    (forall u: Ulid :: c.ulidParse(c.ulidText(u)) == Some(u)) &&
    (forall m :: c.metaFrom(c.metaTo(m)) == m) &&
    (forall p: Cell :: p.kind in c.knownKinds ==> c.cellFrom(c.knownKinds, c.cellTo(p)) == Some(p)) &&
    (forall j :: c.cellFrom(c.knownKinds, j).Some? ==> c.cellFrom(c.knownKinds, j).value.kind in c.knownKinds)
  }

  const KIND := "conduit:envelope"
  const EVENT_PREFIX := "conduit:event:"

  /// EventEnvelope::name().
  function Name(e: Envelope): string {
    match e.payload
    case None => ""
    case Some(p) => if EVENT_PREFIX <= p.kind then p.kind[|EVENT_PREFIX|..] else p.kind
  }

  // ----- encoding -----------------------------------------------------------------------------

  /// `listing` is the order in which the flag set happens to be walked.
  ghost predicate Lists(listing: seq<string>, flags: set<string>) {
    (forall f :: f in listing <==> f in flags) && forall i, j :: 0 <= i < j < |listing| ==> listing[i] != listing[j]
  }

  function Names(listing: seq<string>): seq<Json> {
    seq(|listing|, i requires 0 <= i < |listing| => Str(listing[i]))
  }

  function PutTime(m: Fields, key: string, t: Option<Ticks>): Fields {
    if t.Some? then m[key := Number(ToMs(t.value))] else m
  }

  function PutId(c: Codec, m: Fields, key: string, u: Option<Ulid>): Fields {
    if u.Some? then m[key := Str(c.ulidText(u.value))] else m
  }

  function TimesJson(t: Times): Fields {
    PutTime(PutTime(PutTime(PutTime(map["created_at" := Number(ToMs(t.created))],
                                    "published_at", t.published),
                            "received_at", t.received),
                    "delivered_at", t.delivered),
            "failed_at", t.failed)
  }

  function Body(c: Codec, e: Envelope, listing: seq<string>): Fields
    requires e.payload.Some?
  {
    PutId(c, PutId(c, map[
      "id" := Str(c.ulidText(e.id)),
      "name" := Str(Name(e)),
      "flags" := Arr(Names(listing)),
      "metadata" := Obj(c.metaTo(e.metadata)),
      "timestamps" := Obj(TimesJson(e.times)),
      "payload" := c.cellTo(e.payload.value)
    ], "correlation_id", e.correlation), "causation_id", e.causation)
  }

  /// EventEnvelope::to_json().
  function Encode(c: Codec, e: Envelope, listing: seq<string>): Result<Json> {
    if e.payload.None? then Err(NoPayload)
    else Ok(Obj(map["k" := Str(KIND), "v" := Obj(Body(c, e, listing))]))
  }

  // ----- decoding -------------------------------------------------------------------------------

  /// get<std::int64_t>(): an unsigned number above the range wraps.
  function Int64(n: int): int {
    if MIN_TICKS <= n <= MAX_TICKS then n else (n - MIN_TICKS) % 0x1_0000_0000_0000_0000 + MIN_TICKS
  }

  /// What a range-for over a JSON value visits.
  function Elements(j: Json): set<Json> {
    match j
    case Arr(items) => set x | x in items
    case Obj(fields) => fields.Values
    case Null => {}
    case _ => {j}
  }

  /// Names that are not registered are dropped silently.
  function Known(c: Codec, es: set<Json>): set<string> {
    set x | x in es && x.Str? && x.s in c.knownFlags :: x.s
  }

  function FlagsOf(c: Codec, es: set<Json>): Result<set<string>> {
    if forall x :: x in es ==> x.Str? then Ok(Known(c, es)) else Err(TypeError)
  }

  function FlagsIn(c: Codec, v: Fields): Result<set<string>> {
    if "flags" in v then FlagsOf(c, Elements(v["flags"])) else Ok({})
  }

  /// An optional id: absent is fine, no text or no ULID is not.
  function IdIn(c: Codec, v: Fields, key: string): Result<Option<Ulid>> {
    if key !in v then Ok(None)
    else if !v[key].Str? then Err(TypeError)
    else if c.ulidParse(v[key].s).None? then Err(Invalid)
    else Ok(c.ulidParse(v[key].s))
  }

  function MetadataIn(c: Codec, v: Fields): Metadata {
    if "metadata" in v && v["metadata"].Obj? then c.metaFrom(v["metadata"].fields) else map[]
  }

  function TimeIn(ts: Fields, key: string): Result<Option<Ticks>> {
    if key !in ts then Ok(None)
    else if !ts[key].Number? then Err(TypeError)
    else if !Representable(Int64(ts[key].n)) then Err(Undefined)
    else Ok(Some(FromMs(Int64(ts[key].n))))
  }

  const NO_TIMES := Times(0, None, None, None, None)

  /// A `timestamps` that is no object has none of the keys.
  function TimesIn(v: Fields): Result<Times> {
    if "timestamps" !in v || !v["timestamps"].Obj? then Ok(NO_TIMES)
    else
      var ts := v["timestamps"].fields;
      var a, b, c, d, e := TimeIn(ts, "created_at"), TimeIn(ts, "published_at"), TimeIn(ts, "received_at"), TimeIn(ts, "delivered_at"), TimeIn(ts, "failed_at");
      if a.Err? then Err(a.error)
      else if b.Err? then Err(b.error)
      else if c.Err? then Err(c.error)
      else if d.Err? then Err(d.error)
      else if e.Err? then Err(e.error)
      else Ok(Times(if a.value.Some? then a.value.value else 0, b.value, c.value, d.value, e.value))
  }

  /// The object under `v`, its parts in the order they are checked.
  function DecodeBody(c: Codec, v: Fields): Result<Envelope> {
    if "id" !in v || !v["id"].Str? then Err(Invalid)
    else
      var id := c.ulidParse(v["id"].s);
      var correlation, causation := IdIn(c, v, "correlation_id"), IdIn(c, v, "causation_id");
      var flags, times := FlagsIn(c, v), TimesIn(v);
      if id.None? then Err(Invalid)
      else if correlation.Err? then Err(correlation.error)
      else if causation.Err? then Err(causation.error)
      else if flags.Err? then Err(flags.error)
      else if times.Err? then Err(times.error)
      else if "payload" !in v then Err(Invalid)
      else
        var p := c.cellFrom(c.knownKinds, v["payload"]);
        if p.None? then Err(BadPayload)
        else Ok(Envelope(id.value, flags.value, MetadataIn(c, v), times.value, correlation.value, causation.value, p))
  }

  /// EventEnvelope::from_json().
  function Decode(c: Codec, j: Json): Result<Envelope> {
    if !j.Obj? || "k" !in j.fields || !j.fields["k"].Str? then Err(Invalid)
    else if j.fields["k"].s != KIND then Err(KindMismatch)
    else if "v" !in j.fields || !j.fields["v"].Obj? then Err(Invalid)
    else DecodeBody(c, j.fields["v"].fields)
  }

  // ----- what the registry makes of it ---------------------------------------------------------------

  datatype Decoded = Got(e: Envelope) | SerializationError | ForeignException | UndefinedBehaviour

  /// decode_json() turns parcel exceptions into its own and lets the JSON
  /// library's through; decode_cbor() turns every exception into its own.
  function DecodeJson(c: Codec, j: Json): Decoded {
    match Decode(c, j)
    case Ok(e) => Got(e)
    case Err(TypeError) => ForeignException
    case Err(Undefined) => UndefinedBehaviour
    case Err(_) => SerializationError
  }

  function DecodeCborDocument(c: Codec, j: Json): Decoded {
    match DecodeJson(c, j)
    case ForeignException => SerializationError
    case d => d
  }

  // ----- what a trip over the wire keeps ------------------------------------------------------------------

  function TruncatedTime(t: Option<Ticks>): Option<Ticks> {
    if t.Some? then Some(Truncated(t.value)) else None
  }

  function TruncatedTimes(t: Times): Times {
    Times(Truncated(t.created), TruncatedTime(t.published), TruncatedTime(t.received), TruncatedTime(t.delivered), TruncatedTime(t.failed))
  }

  /// Everything but unregistered flags and fractions of milliseconds.
  function Normalised(c: Codec, e: Envelope): Envelope {
    e.(flags := e.flags * c.knownFlags, times := TruncatedTimes(e.times))
  }

  // ----- round trip -----------------------------------------------------------------------------------------

  lemma IdTrip(c: Codec, v: Fields, key: string, u: Option<Ulid>)
    requires Faithful(c)
    requires u.Some? ==> key in v && v[key] == Str(c.ulidText(u.value))
    requires u.None? ==> key !in v
    ensures IdIn(c, v, key) == Ok(u)
  {
  }

  lemma FlagsTrip(c: Codec, listing: seq<string>, flags: set<string>)
    requires Lists(listing, flags)
    ensures FlagsOf(c, Elements(Arr(Names(listing)))) == Ok(flags * c.knownFlags)
  {
    var names := Names(listing);
    var es := Elements(Arr(names));
    forall f | f in flags * c.knownFlags ensures Str(f) in es {
      var i :| 0 <= i < |listing| && listing[i] == f;
      assert names[i] == Str(f);
    }
    forall x | x in es ensures x.Str? && x.s in flags {
      var i :| 0 <= i < |names| && names[i] == x;
    }
    assert Known(c, es) == flags * c.knownFlags;
  }

  lemma TimeTrip(ts: Fields, key: string, t: Option<Ticks>)
    requires t.Some? ==> key in ts && ts[key] == Number(ToMs(t.value))
    requires t.None? ==> key !in ts
    ensures TimeIn(ts, key) == Ok(TruncatedTime(t))
  {
    if t.Some? {
      Sendable(t.value);
    }
  }

  lemma TimesTrip(v: Fields, t: Times)
    requires "timestamps" in v && v["timestamps"] == Obj(TimesJson(t))
    ensures TimesIn(v) == Ok(TruncatedTimes(t))
  {
    var ts := TimesJson(t);
    TimeTrip(ts, "created_at", Some(t.created));
    TimeTrip(ts, "published_at", t.published);
    TimeTrip(ts, "received_at", t.received);
    TimeTrip(ts, "delivered_at", t.delivered);
    TimeTrip(ts, "failed_at", t.failed);
  }

  /// Decoding an encoded envelope gives back its ids, correlation, causation,
  /// metadata, payload and which timestamps it has, its registered flags, and
  /// its times to the millisecond.
  lemma RoundTrip(c: Codec, e: Envelope, listing: seq<string>)
    requires Faithful(c) && Lists(listing, e.flags) && e.payload.Some? && e.payload.value.kind in c.knownKinds
    ensures Encode(c, e, listing).Ok? && Decode(c, Encode(c, e, listing).value) == Ok(Normalised(c, e))
  {
    var v := Body(c, e, listing);
    IdTrip(c, v, "correlation_id", e.correlation);
    IdTrip(c, v, "causation_id", e.causation);
    FlagsTrip(c, listing, e.flags);
    TimesTrip(v, e.times);
    BodyParts(c, e, listing);
  }

  lemma BodyParts(c: Codec, e: Envelope, listing: seq<string>)
    requires e.payload.Some?
    ensures var v := Body(c, e, listing);
            "id" in v && v["id"] == Str(c.ulidText(e.id)) &&
            "flags" in v && v["flags"] == Arr(Names(listing)) &&
            "metadata" in v && v["metadata"] == Obj(c.metaTo(e.metadata)) &&
            "payload" in v && v["payload"] == c.cellTo(e.payload.value)
  {
  }

  lemma TimesIdempotent(t: Times)
    ensures TruncatedTimes(TruncatedTimes(t)) == TruncatedTimes(t)
  {
    TruncationIdempotent(t.created);
    TimeIdempotent(t.published);
    TimeIdempotent(t.received);
    TimeIdempotent(t.delivered);
    TimeIdempotent(t.failed);
  }

  lemma TimeIdempotent(t: Option<Ticks>)
    ensures TruncatedTime(TruncatedTime(t)) == TruncatedTime(t)
  {
    if t.Some? { TruncationIdempotent(t.value); }
  }

  /// A second trip loses nothing more.
  lemma SecondTripExact(c: Codec, e: Envelope, listing: seq<string>, again: seq<string>)
    requires Faithful(c) && Lists(listing, e.flags) && e.payload.Some? && e.payload.value.kind in c.knownKinds
    requires Lists(again, Normalised(c, e).flags)
    ensures Decode(c, Encode(c, e, listing).value) == Ok(Normalised(c, e))
    ensures Decode(c, Encode(c, Normalised(c, e), again).value) == Ok(Normalised(c, e))
  {
    RoundTrip(c, e, listing);
    RoundTrip(c, Normalised(c, e), again);
    TimesIdempotent(e.times);
    assert e.flags * c.knownFlags * c.knownFlags == e.flags * c.knownFlags;
    hide Decode, Encode;
  }

  /// A time read from a document has no fraction of a millisecond.
  lemma ReadTimeNormal(ts: Fields, key: string)
    requires TimeIn(ts, key).Ok?
    ensures TruncatedTime(TimeIn(ts, key).value) == TimeIn(ts, key).value
  {
    if key in ts {
      MsRoundTrip(Int64(ts[key].n));
    }
  }

  lemma ReadTimesNormal(v: Fields)
    requires TimesIn(v).Ok?
    ensures TruncatedTimes(TimesIn(v).value) == TimesIn(v).value
  {
    if "timestamps" in v && v["timestamps"].Obj? {
      var ts := v["timestamps"].fields;
      ReadTimeNormal(ts, "created_at");
      ReadTimeNormal(ts, "published_at");
      ReadTimeNormal(ts, "received_at");
      ReadTimeNormal(ts, "delivered_at");
      ReadTimeNormal(ts, "failed_at");
      hide TimeIn;
    }
  }

  /// Whatever document an envelope was read from, it can be sent on exactly: so
  /// a chain of forwarders changes nothing after the first.
  lemma DecodedTravelsExactly(c: Codec, j: Json, e: Envelope, listing: seq<string>)
    requires Faithful(c) && Decode(c, j) == Ok(e) && Lists(listing, e.flags)
    ensures Encode(c, e, listing).Ok? && Decode(c, Encode(c, e, listing).value) == Ok(e)
  {
    var v := j.fields["v"].fields;
    ReadTimesNormal(v);
    assert e.flags <= c.knownFlags;
    assert e.flags * c.knownFlags == e.flags;
    assert Normalised(c, e) == e;
    RoundTrip(c, e, listing);
  }

  /// When every flag is registered, what was decoded encodes to the document it
  /// came from: the same one for the same flag order, and for another order
  /// one that differs only by a permutation of that array.
  lemma SameDocument(c: Codec, e: Envelope, listing: seq<string>, again: seq<string>)
    requires Lists(listing, e.flags) && e.payload.Some? && e.flags <= c.knownFlags
    requires Lists(again, Normalised(c, e).flags)
    ensures Lists(listing, Normalised(c, e).flags)
    ensures Encode(c, Normalised(c, e), listing) == Encode(c, e, listing)
    ensures Body(c, Normalised(c, e), again) == Body(c, e, listing)["flags" := Arr(Names(again))]
    ensures multiset(Names(again)) == multiset(Names(listing))
  {
    assert e.flags * c.knownFlags == e.flags;
    SameTimesJson(e.times);
    SamePermutation(listing, again, e.flags);
    BodyFlags(c, e, listing, again);
  }

  lemma SameTimesJson(t: Times)
    ensures TimesJson(TruncatedTimes(t)) == TimesJson(t)
  {
    SameMs(t.created);
    if t.published.Some? { SameMs(t.published.value); }
    if t.received.Some? { SameMs(t.received.value); }
    if t.delivered.Some? { SameMs(t.delivered.value); }
    if t.failed.Some? { SameMs(t.failed.value); }
    hide ToMs, Truncated;
  }

  lemma SameMs(t: Ticks)
    ensures ToMs(Truncated(t)) == ToMs(t)
  {
    Sendable(t);
    MsRoundTrip(ToMs(t));
  }

  lemma SamePermutation(a: seq<string>, b: seq<string>, s: set<string>)
    requires Lists(a, s) && Lists(b, s)
    ensures multiset(Names(a)) == multiset(Names(b))
  {
    forall x: Json ensures multiset(Names(a))[x] == multiset(Names(b))[x] {
      CountName(a, s, x);
      CountName(b, s, x);
    }
  }

  lemma {:induction false} CountName(a: seq<string>, s: set<string>, x: Json)
    requires Lists(a, s)
    ensures multiset(Names(a))[x] == if x.Str? && x.s in s then 1 else 0
  {
    if a == [] {
      assert Names(a) == [];
    } else {
      var n := |a| - 1;
      assert a == a[..n] + [a[n]];
      assert Names(a) == Names(a[..n]) + [Str(a[n])];
      CountName(a[..n], s - {a[n]}, x);
    }
  }

  lemma BodyFlags(c: Codec, e: Envelope, listing: seq<string>, again: seq<string>)
    requires e.payload.Some?
    ensures Body(c, e, again) == Body(c, e, listing)["flags" := Arr(Names(again))]
  {
  }

  // ----- the layout, written out ---------------------------------------------------------------------------

  /// The document's `name` is the payload's kind without the event prefix.
  lemma NameField(c: Codec, e: Envelope, listing: seq<string>, rest: string)
    requires e.payload.Some?
    ensures var v := Body(c, e, listing);
            Encode(c, e, listing) == Ok(Obj(map["k" := Str("conduit:envelope"), "v" := Obj(v)])) && "name" in v &&
            (e.payload.value.kind == "conduit:event:" + rest ==> v["name"] == Str(rest)) &&
            (!("conduit:event:" <= e.payload.value.kind) ==> v["name"] == Str(e.payload.value.kind))
  {
    var kind := e.payload.value.kind;
    if kind == "conduit:event:" + rest {
      assert kind[|"conduit:event:"|..] == rest;
    }
    BodyParts(c, e, listing);
    hide Names, TimesJson;
  }

  function KeyIf(key: string, there: bool): set<string> {
    if there then {key} else {}
  }

  /// Which keys the object under `v` has, and what each holds.
  lemma Layout(c: Codec, e: Envelope, listing: seq<string>)
    requires e.payload.Some?
    ensures var v := Body(c, e, listing);
            v.Keys == {"id", "name", "flags", "metadata", "timestamps", "payload"} +
                      KeyIf("correlation_id", e.correlation.Some?) + KeyIf("causation_id", e.causation.Some?) &&
            v["id"] == Str(c.ulidText(e.id)) && v["flags"] == Arr(Names(listing)) &&
            v["metadata"] == Obj(c.metaTo(e.metadata)) && v["timestamps"] == Obj(TimesJson(e.times)) &&
            v["payload"] == c.cellTo(e.payload.value) &&
            (e.correlation.Some? ==> v["correlation_id"] == Str(c.ulidText(e.correlation.value))) &&
            (e.causation.Some? ==> v["causation_id"] == Str(c.ulidText(e.causation.value)))
  {
    hide Names, TimesJson, Name;
  }

  /// Likewise for `timestamps`: milliseconds, and only of the times there are.
  lemma TimesLayout(t: Times)
    ensures var ts := TimesJson(t);
            ts.Keys == {"created_at"} + KeyIf("published_at", t.published.Some?) + KeyIf("received_at", t.received.Some?) +
                       KeyIf("delivered_at", t.delivered.Some?) + KeyIf("failed_at", t.failed.Some?) &&
            ts["created_at"] == Number(ToMs(t.created)) &&
            (t.published.Some? ==> ts["published_at"] == Number(ToMs(t.published.value))) &&
            (t.received.Some? ==> ts["received_at"] == Number(ToMs(t.received.value))) &&
            (t.delivered.Some? ==> ts["delivered_at"] == Number(ToMs(t.delivered.value))) &&
            (t.failed.Some? ==> ts["failed_at"] == Number(ToMs(t.failed.value)))
  {
    hide ToMs;
  }

  /// When a document decodes, and when not.
  lemma DecodesIff(c: Codec, j: Json)
    ensures Decode(c, j).Ok? <==>
              Framed(c, j) &&
              var v := j.fields["v"].fields;
              IdFine(c, v, "correlation_id") && IdFine(c, v, "causation_id") && !FlagNotText(v) &&
              !TimeNotNumber(v) && !TimeTooLarge(v) && "payload" in v && c.cellFrom(c.knownKinds, v["payload"]).Some?
  {
    if Framed(c, j) {
      var v := j.fields["v"].fields;
      assert FlagsIn(c, v).Err? <==> FlagNotText(v);
      TimesErrors(v);
      hide TimesIn, FlagsIn, TimeNotNumber, TimeTooLarge, FlagNotText;
    }
  }

  lemma TimesErrors(v: Fields)
    ensures TimesIn(v).Err? <==> TimeNotNumber(v) || TimeTooLarge(v)
  {
    TimesInIff(v);
    hide TimeNotNumber, TimeTooLarge;
    assert TimesIn(v).Err? ==> TimesIn(v).error == TypeError || TimesIn(v).error == Undefined;
  }

  /// What each part decodes to that is there.
  lemma PresentParts(c: Codec, v: Fields)
    requires DecodeBody(c, v).Ok?
    ensures var e := DecodeBody(c, v).value;
            "id" in v && v["id"].Str? && c.ulidParse(v["id"].s) == Some(e.id) &&
            ("correlation_id" in v ==> v["correlation_id"].Str? && e.correlation == c.ulidParse(v["correlation_id"].s)) &&
            ("causation_id" in v ==> v["causation_id"].Str? && e.causation == c.ulidParse(v["causation_id"].s)) &&
            ("metadata" in v && v["metadata"].Obj? ==> e.metadata == c.metaFrom(v["metadata"].fields)) &&
            "payload" in v && e.payload == c.cellFrom(c.knownKinds, v["payload"])
  {
    hide TimesIn, FlagsIn;
  }

  /// Flags: the registered names among the elements of an array or the values of
  /// an object, or a single text; a null is an empty list.
  lemma PresentFlags(c: Codec, v: Fields, f: string)
    requires DecodeBody(c, v).Ok? && "flags" in v
    ensures var j := v["flags"];
            f in DecodeBody(c, v).value.flags <==>
              f in c.knownFlags && (j == Str(f) || (j.Arr? && Str(f) in j.items) || (j.Obj? && exists k :: k in j.fields && j.fields[k] == Str(f)))
  {
    var es := Elements(v["flags"]);
    assert DecodeBody(c, v).value.flags == Known(c, es);
    assert f in Known(c, es) <==> f in c.knownFlags && Str(f) in es;
    hide TimesIn, FlagsIn, IdIn, MetadataIn;
  }

  /// Timestamps: milliseconds, with an unsigned number above the 64-bit range taken
  /// as the negative one of the same bits.
  lemma PresentTime(ts: Fields, key: string, n: int)
    requires key in ts && ts[key] == Number(n) && TimeIn(ts, key).Ok?
    ensures -0x8000_0000_0000_0000 <= n < 0x8000_0000_0000_0000 ==> TimeIn(ts, key) == Ok(Some(n * 1_000_000))
    ensures 0x8000_0000_0000_0000 <= n < 0x1_0000_0000_0000_0000 ==> TimeIn(ts, key) == Ok(Some((n - 0x1_0000_0000_0000_0000) * 1_000_000))
  {
  }

  lemma PresentTimes(c: Codec, v: Fields)
    requires DecodeBody(c, v).Ok? && "timestamps" in v && v["timestamps"].Obj?
    ensures var t, ts := DecodeBody(c, v).value.times, v["timestamps"].fields;
            ("created_at" in ts ==> TimeIn(ts, "created_at") == Ok(Some(t.created))) &&
            TimeIn(ts, "published_at") == Ok(t.published) && TimeIn(ts, "received_at") == Ok(t.received) &&
            TimeIn(ts, "delivered_at") == Ok(t.delivered) && TimeIn(ts, "failed_at") == Ok(t.failed)
  {
    hide IdIn, FlagsIn, MetadataIn;
  }

  /// What a missing part decodes to: no flags, no metadata, the epoch and no other
  /// time, no ids. A `metadata` or `timestamps` that is no object counts as missing.
  lemma MissingParts(c: Codec, v: Fields)
    requires DecodeBody(c, v).Ok?
    ensures var e := DecodeBody(c, v).value;
            ("flags" !in v ==> e.flags == {}) &&
            ("metadata" !in v || !v["metadata"].Obj? ==> e.metadata == map[]) &&
            ("timestamps" !in v || !v["timestamps"].Obj? ==> e.times == Times(0, None, None, None, None)) &&
            ("correlation_id" !in v ==> e.correlation == None) && ("causation_id" !in v ==> e.causation == None)
  {
    hide IdIn, TimeIn, FlagsOf;
    assert "correlation_id" !in v ==> IdIn(c, v, "correlation_id") == Ok(None) by { MissingId(c, v, "correlation_id"); }
    assert "causation_id" !in v ==> IdIn(c, v, "causation_id") == Ok(None) by { MissingId(c, v, "causation_id"); }
  }

  lemma MissingId(c: Codec, v: Fields, key: string)
    ensures key !in v ==> IdIn(c, v, key) == Ok(None)
  {
  }

  /// And inside `timestamps`, key by key.
  lemma MissingTimes(c: Codec, v: Fields)
    requires DecodeBody(c, v).Ok? && "timestamps" in v && v["timestamps"].Obj?
    ensures var t, ts := DecodeBody(c, v).value.times, v["timestamps"].fields;
            ("created_at" !in ts ==> t.created == 0) && (t.published.Some? <==> "published_at" in ts) &&
            (t.received.Some? <==> "received_at" in ts) && (t.delivered.Some? <==> "delivered_at" in ts) &&
            (t.failed.Some? <==> "failed_at" in ts)
  {
    hide IdIn, FlagsIn, MetadataIn;
  }

  // ----- decoding, other documents --------------------------------------------------------------------------

  /// `name` is written for readers; decoding never looks at it.
  lemma NameIgnored(c: Codec, v: Fields, name: Json)
    ensures DecodeBody(c, v["name" := name]) == DecodeBody(c, v - {"name"}) == DecodeBody(c, v)
  {
  }

  /// The document has the envelope's frame: `k`, an object under `v`, an id.
  predicate Framed(c: Codec, j: Json) {
    j.Obj? && "k" in j.fields && j.fields["k"] == Str(KIND) && "v" in j.fields && j.fields["v"].Obj? &&
    var v := j.fields["v"].fields;
    "id" in v && v["id"].Str? && c.ulidParse(v["id"].s).Some?
  }

  predicate NotText(v: Fields, key: string) {
    key in v && !v[key].Str?
  }

  /// An optional id that decodes.
  predicate IdFine(c: Codec, v: Fields, key: string) {
    key in v ==> v[key].Str? && c.ulidParse(v[key].s).Some?
  }

  predicate FlagNotText(v: Fields) {
    "flags" in v && exists x :: x in Elements(v["flags"]) && !x.Str?
  }

  const TIME_KEYS := ["created_at", "published_at", "received_at", "delivered_at", "failed_at"]

  /// A timestamp that decodes.
  predicate TimeFine(ts: Fields, key: string) {
    key in ts ==> ts[key].Number? && Representable(Int64(ts[key].n))
  }

  /// The timestamp read as number `i` is the first that does not decode.
  predicate FirstBad(ts: Fields, i: nat) {
    i < |TIME_KEYS| && !TimeFine(ts, TIME_KEYS[i]) && forall k :: 0 <= k < i ==> TimeFine(ts, TIME_KEYS[k])
  }

  /// That timestamp is no number, or one too large to convert.
  ghost predicate TimeNotNumber(v: Fields) {
    "timestamps" in v && v["timestamps"].Obj? &&
    exists i: nat :: FirstBad(v["timestamps"].fields, i) && !v["timestamps"].fields[TIME_KEYS[i]].Number?
  }

  ghost predicate TimeTooLarge(v: Fields) {
    "timestamps" in v && v["timestamps"].Obj? &&
    exists i: nat :: FirstBad(v["timestamps"].fields, i) && v["timestamps"].fields[TIME_KEYS[i]].Number?
  }

  /// The first field that does not decode has the wrong JSON type.
  ghost predicate WrongTypeFirst(c: Codec, v: Fields) {
    NotText(v, "correlation_id") ||
    (IdFine(c, v, "correlation_id") &&
     (NotText(v, "causation_id") ||
      (IdFine(c, v, "causation_id") && (FlagNotText(v) || TimeNotNumber(v)))))
  }

  /// The first field that does not decode is a timestamp too large to convert.
  ghost predicate OverflowFirst(c: Codec, v: Fields) {
    IdFine(c, v, "correlation_id") && IdFine(c, v, "causation_id") && !FlagNotText(v) && TimeTooLarge(v)
  }

  /// The first timestamp that does not decode, if any, decides the outcome.
  lemma TimesInIff(v: Fields)
    ensures TimesIn(v) == Err(TypeError) <==> TimeNotNumber(v)
    ensures TimesIn(v) == Err(Undefined) <==> TimeTooLarge(v)
  {
    if "timestamps" in v && v["timestamps"].Obj? {
      var ts := v["timestamps"].fields;
      forall key ensures TimeFine(ts, key) <==> TimeIn(ts, key).Ok? {}
      forall i: nat | FirstBad(ts, i) ensures TimesIn(v) == Err(TimeIn(ts, TIME_KEYS[i]).error) {
        BadDecides(v, i);
      }
      if TimesIn(v).Err? {
        var i := if !TimeFine(ts, TIME_KEYS[0]) then 0 else if !TimeFine(ts, TIME_KEYS[1]) then 1
                 else if !TimeFine(ts, TIME_KEYS[2]) then 2 else if !TimeFine(ts, TIME_KEYS[3]) then 3 else 4;
        assert FirstBad(ts, i);
      }
    }
  }

  lemma BadDecides(v: Fields, i: nat)
    requires "timestamps" in v && v["timestamps"].Obj? && FirstBad(v["timestamps"].fields, i)
    ensures TimeIn(v["timestamps"].fields, TIME_KEYS[i]).Err?
    ensures TimesIn(v) == Err(TimeIn(v["timestamps"].fields, TIME_KEYS[i]).error)
  {
    var ts := v["timestamps"].fields;
    assert i > 0 ==> TimeFine(ts, TIME_KEYS[0]);
    assert i > 1 ==> TimeFine(ts, TIME_KEYS[1]);
    assert i > 2 ==> TimeFine(ts, TIME_KEYS[2]);
    assert i > 3 ==> TimeFine(ts, TIME_KEYS[3]);
  }

  /// decode_json keeps its promise of a single exception type on exactly the
  /// documents that do not meet this: the frame is right and the first field
  /// that does not decode has the wrong JSON type. decode_cbor always keeps it.
  lemma EscapesIff(c: Codec, j: Json)
    ensures DecodeJson(c, j) == ForeignException <==> Framed(c, j) && WrongTypeFirst(c, j.fields["v"].fields)
    ensures DecodeJson(c, j) == UndefinedBehaviour <==> Framed(c, j) && OverflowFirst(c, j.fields["v"].fields)
    ensures DecodeCborDocument(c, j) == (if DecodeJson(c, j) == ForeignException then SerializationError else DecodeJson(c, j))
  {
    if Framed(c, j) {
      var v := j.fields["v"].fields;
      assert FlagsIn(c, v).Err? <==> FlagNotText(v);
      TimesInIff(v);
      hide TimesIn, FlagsIn, TimeNotNumber, TimeTooLarge, FlagNotText;
    }
  }

  /// An id that is present but no string makes decode_json fail with the JSON
  /// library's exception; the same document as CBOR gives a SerializationError.
  lemma WrongTypeEscapesJson(c: Codec, v: Fields)
    requires "id" in v && v["id"].Str? && c.ulidParse(v["id"].s).Some?
    requires "correlation_id" in v && !v["correlation_id"].Str?
    ensures var j := Obj(map["k" := Str(KIND), "v" := Obj(v)]);
            DecodeJson(c, j) == ForeignException && DecodeCborDocument(c, j) == SerializationError
  {
  }

  // ----- the code's own shape ----------------------------------------------------------------------------------

  method ListFlags(flags: set<string>) returns (listing: seq<string>)
    ensures Lists(listing, flags)
  {
    listing := [];
    var left := flags;
    while left != {}
      invariant left <= flags && Lists(listing, flags - left)
      decreases |left|
    {
      var f :| f in left;
      left, listing := left - {f}, listing + [f];
    }
  }

  method FlagsToJson(listing: seq<string>) returns (arr: Json)
    ensures arr == Arr(Names(listing))
  {
    var names: seq<Json> := [];
    for i := 0 to |listing|
      invariant names == Names(listing[..i])
    {
      assert listing[..i + 1] == listing[..i] + [listing[i]];
      names := names + [Str(listing[i])];
    }
    assert listing[..|listing|] == listing;
    return Arr(names);
  }

  method TimesToJson(t: Times) returns (ts: Fields)
    ensures ts == TimesJson(t)
  {
    ts := map["created_at" := Number(ToMs(t.created))];
    if t.published.Some? {
      ts := ts["published_at" := Number(ToMs(t.published.value))];
    }
    if t.received.Some? {
      ts := ts["received_at" := Number(ToMs(t.received.value))];
    }
    if t.delivered.Some? {
      ts := ts["delivered_at" := Number(ToMs(t.delivered.value))];
    }
    if t.failed.Some? {
      ts := ts["failed_at" := Number(ToMs(t.failed.value))];
    }
  }

  /// to_json(), field by field, walking the flags in whatever order they come.
  method ToJson(c: Codec, e: Envelope) returns (r: Result<Json>, listing: seq<string>)
    ensures Lists(listing, e.flags) && r == Encode(c, e, listing)
  {
    listing := ListFlags(e.flags);
    if e.payload.None? {
      return Err(NoPayload), listing;
    }
    var obj: Fields := map["id" := Str(c.ulidText(e.id))];
    obj := obj["name" := Str(Name(e))];
    var flags := FlagsToJson(listing);
    obj := obj["flags" := flags];
    if e.correlation.Some? {
      obj := obj["correlation_id" := Str(c.ulidText(e.correlation.value))];
    }
    if e.causation.Some? {
      obj := obj["causation_id" := Str(c.ulidText(e.causation.value))];
    }
    obj := obj["metadata" := Obj(c.metaTo(e.metadata))];
    var ts := TimesToJson(e.times);
    obj := obj["timestamps" := Obj(ts)];
    obj := obj["payload" := c.cellTo(e.payload.value)];
    hide TimesJson, Name, Names, Lists;
    assert obj == Body(c, e, listing);
    return Ok(Obj(map["k" := Str(KIND), "v" := Obj(obj)])), listing;
  }

  /// What a loop over an object visits, in some order.
  method Values(fields: Fields) returns (xs: seq<Json>)
    ensures forall x :: x in xs <==> x in fields.Values
  {
    xs := [];
    var left := fields.Keys;
    while left != {}
      invariant left <= fields.Keys
      invariant forall x :: x in xs <==> exists k :: k in fields.Keys - left && fields[k] == x
      decreases |left|
    {
      var k :| k in left;
      left, xs := left - {k}, xs + [fields[k]];
    }
  }

  /// The loop over `flags`.
  method ReadFlags(c: Codec, j: Json) returns (r: Result<set<string>>)
    ensures r == FlagsOf(c, Elements(j))
  {
    var xs: seq<Json>;
    match j {
      case Arr(items) => xs := items;
      case Obj(fields) => xs := Values(fields);
      case Null => xs := [];
      case _ => xs := [j];
    }
    assert forall x :: x in xs <==> x in Elements(j);
    var flags: set<string> := {};
    for i := 0 to |xs|
      invariant forall k :: 0 <= k < i ==> xs[k].Str?
      invariant forall f :: f in flags <==> f in c.knownFlags && Str(f) in xs[..i]
    {
      if !xs[i].Str? {
        assert xs[i] in Elements(j);
        return Err(TypeError);
      }
      if xs[i].s in c.knownFlags {
        flags := flags + {xs[i].s};
      }
      assert xs[..i + 1] == xs[..i] + [xs[i]];
    }
    assert xs[..|xs|] == xs;
    forall f ensures f in flags <==> f in Known(c, Elements(j)) {
      assert f in flags ==> Str(f) in Elements(j);
      assert f in Known(c, Elements(j)) ==> Str(f) in xs;
    }
    assert flags == Known(c, Elements(j));
    return Ok(flags);
  }

  /// One optional id, thrown out of from_json() when it is wrong.
  method ReadId(c: Codec, v: Fields, key: string) returns (r: Result<Option<Ulid>>)
    ensures r == IdIn(c, v, key)
  {
    if key !in v {
      return Ok(None);
    }
    if !v[key].Str? {
      return Err(TypeError);
    }
    var parsed := c.ulidParse(v[key].s);
    if parsed.None? {
      return Err(Invalid);
    }
    return Ok(parsed);
  }

  /// from_json() below the two envelope keys, filling the core field by field.
  method FromJsonBody(c: Codec, v: Fields) returns (r: Result<Envelope>)
    ensures r == DecodeBody(c, v)
  {
    hide FlagsIn, FlagsOf, TimesIn, MetadataIn;
    if "id" !in v || !v["id"].Str? {
      return Err(Invalid);
    }
    var id := c.ulidParse(v["id"].s);
    if id.None? {
      return Err(Invalid);
    }
    var core := Envelope(id.value, {}, map[], NO_TIMES, None, None, None);
    var correlation := ReadId(c, v, "correlation_id");
    if correlation.Err? {
      return Err(correlation.error);
    }
    core := core.(correlation := correlation.value);
    var causation := ReadId(c, v, "causation_id");
    if causation.Err? {
      return Err(causation.error);
    }
    core := core.(causation := causation.value);
    var flags := ReadFlagsField(c, v);
    if flags.Err? {
      return Err(flags.error);
    }
    core := core.(flags := flags.value, metadata := MetadataIn(c, v));
    var times := TimesIn(v);
    if times.Err? {
      return Err(times.error);
    }
    core := core.(times := times.value);
    if "payload" !in v {
      return Err(Invalid);
    }
    var payload := c.cellFrom(c.knownKinds, v["payload"]);
    if payload.None? {
      return Err(BadPayload);
    }
    return Ok(core.(payload := payload));
  }

  method ReadFlagsField(c: Codec, v: Fields) returns (r: Result<set<string>>)
    ensures r == FlagsIn(c, v)
  {
    if "flags" in v {
      r := ReadFlags(c, v["flags"]);
    } else {
      r := Ok({});
    }
  }
}
