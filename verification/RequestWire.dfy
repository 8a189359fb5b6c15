// Tune, retune and untune requests on the wire: how clients encode them, how the
// server decodes them, and that nothing is lost in between.

module RequestWire {
  import opened Types
  import opened WireBytes
  import opened Encoders

  const MOD_RESTUNE := 0
  const REQ_RESOURCE_TUNING := 0
  const REQ_RESOURCE_RETUNING := 1
  const REQ_RESOURCE_UNTUNING := 2

  const MAX_RES_PER_REQ := 20

  // A resource of a request, with as many values as it says.
  datatype SysResource = SysResource(code: UInt32, info: Int32, optionalInfo: Int32, numValues: Int32,
                                     values: seq<Int32>)

  // What a decoded request consists of.
  datatype WireRequest = WireRequest(kind: int, handle: int, duration: int, properties: int, pid: int, tid: int,
                                     resources: seq<WireResource>)

  datatype WireResource = WireResource(code: nat, info: int, optionalInfo: int, numValues: int, values: seq<int>)

  // ---- The format ----

  function Join(parts: seq<seq<Byte>>): seq<Byte> {
    if parts == [] then [] else Join(parts[..|parts| - 1]) + parts[|parts| - 1]
  }

  lemma {:induction false} JoinFirst(part: seq<Byte>, parts: seq<seq<Byte>>)
    ensures Join([part] + parts) == part + Join(parts)
  {
    if parts == [] {
      assert ([part] + parts)[..0] == [];
      assert [] + part == part + [];
    } else {
      var init, last := parts[..|parts| - 1], parts[|parts| - 1];
      JoinFirst(part, init);
      assert ([part] + parts)[..|parts|] == [part] + init;
      assert (part + Join(init)) + last == part + (Join(init) + last);
    }
  }

  lemma JoinAppend(parts: seq<seq<Byte>>, part: seq<Byte>)
    ensures Join(parts + [part]) == Join(parts) + part
  {
    assert (parts + [part])[..|parts|] == parts;
  }

  function ValueParts(vs: seq<int>): (r: seq<seq<Byte>>)
    ensures |r| == |vs|
  {
    seq(|vs|, i requires 0 <= i < |vs| => Bytes(4, vs[i]))
  }

  function ValueBytes(vs: seq<int>): seq<Byte> {
    Join(ValueParts(vs))
  }

  function ResourceBytes(r: WireResource): seq<Byte> {
    Bytes(4, r.code) + (Bytes(4, r.info) + (Bytes(4, r.optionalInfo) + (Bytes(4, r.numValues) + ValueBytes(r.values))))
  }

  function ResourceParts(rs: seq<WireResource>): (r: seq<seq<Byte>>)
    ensures |r| == |rs|
  {
    seq(|rs|, i requires 0 <= i < |rs| => ResourceBytes(rs[i]))
  }

  function ResourceListBytes(rs: seq<WireResource>): seq<Byte> {
    Join(ResourceParts(rs))
  }

  function HeaderBytes(m: WireRequest): seq<Byte> {
    Bytes(1, MOD_RESTUNE) + (Bytes(1, m.kind) + (Bytes(8, m.handle) + (Bytes(8, m.duration) + (Bytes(4, |m.resources|) +
    (Bytes(4, m.properties) + (Bytes(4, m.pid) + Bytes(4, m.tid)))))))
  }

  function RequestBytes(m: WireRequest): seq<Byte> {
    HeaderBytes(m) + ResourceListBytes(m.resources)
  }

  // ---- Decoding ----

  function ReadValues(n: int, s: seq<Byte>): Option<Read<seq<int>>>
    decreases n
  {
    if n <= 0 then Some(Read([], s))
    else
      match ReadInt(4, s)
      case None => None
      case Some(v) =>
        match ReadValues(n - 1, v.rest)
        case None => None
        case Some(vs) => Some(Read([v.value] + vs.value, vs.rest))
  }

  datatype Quad = Quad(a: nat, b: int, c: int, d: int)

  function ReadQuad(s: seq<Byte>): Option<Read<Quad>> {
    if |s| < 16 then None
    else Some(Read(Quad(Unsigned(s[..4]), Signed(s[4..8]), Signed(s[8..12]), Signed(s[12..16])), s[16..]))
  }

  function ReadResource(s: seq<Byte>): Option<Read<WireResource>> {
    match ReadQuad(s)
    case None => None
    case Some(q) =>
      match ReadValues(q.value.d, q.rest)
      case None => None
      case Some(vs) => Some(Read(WireResource(q.value.a, q.value.b, q.value.c, q.value.d, vs.value), vs.rest))
  }

  function ReadResources(n: int, s: seq<Byte>): Option<Read<seq<WireResource>>>
    decreases n
  {
    if n <= 0 then Some(Read([], s))
    else
      match ReadResource(s)
      case None => None
      case Some(r) =>
        match ReadResources(n - 1, r.rest)
        case None => None
        case Some(rs) => Some(Read([r.value] + rs.value, rs.rest))
  }

  const HEADER_SIZE := 34

  // The reads behind the end of a buffer that a malformed request would cause
  // are None here.
  function DecodeRequest(s: seq<Byte>): Option<WireRequest> {
    if |s| < HEADER_SIZE then None
    else
      var m := WireRequest(Signed(s[1..2]), Signed(s[2..10]), Signed(s[10..18]), Signed(s[22..26]), Signed(s[26..30]),
                           Signed(s[30..34]), []);
      if m.kind != REQ_RESOURCE_TUNING then Some(m)
      else
        match ReadResources(Signed(s[18..22]), s[HEADER_SIZE..])
        case None => None
        case Some(rs) => Some(m.(resources := rs.value))
  }

  // ---- Round trip ----

  predicate WellFormedResource(r: WireResource) {
    && FitsNat(4, r.code) && FitsInt(4, r.info) && FitsInt(4, r.optionalInfo) && FitsInt(4, r.numValues)
    && r.numValues == |r.values| && forall i :: 0 <= i < |r.values| ==> FitsInt(4, r.values[i])
  }

  predicate WellFormed(m: WireRequest) {
    && FitsInt(1, m.kind) && FitsInt(8, m.handle) && FitsInt(8, m.duration) && FitsInt(4, |m.resources|)
    && FitsInt(4, m.properties) && FitsInt(4, m.pid) && FitsInt(4, m.tid)
    && (forall i :: 0 <= i < |m.resources| ==> WellFormedResource(m.resources[i]))
    && (m.kind != REQ_RESOURCE_TUNING ==> m.resources == [])
  }

  lemma ValueBytesFirst(vs: seq<int>)
    requires vs != []
    ensures ValueBytes(vs) == Bytes(4, vs[0]) + ValueBytes(vs[1..])
  {
    assert ValueParts(vs) == [Bytes(4, vs[0])] + ValueParts(vs[1..]);
    JoinFirst(Bytes(4, vs[0]), ValueParts(vs[1..]));
  }

  lemma ValueBytesAppend(vs: seq<int>, j: nat)
    requires j < |vs|
    ensures ValueBytes(vs[..j + 1]) == ValueBytes(vs[..j]) + Bytes(4, vs[j])
  {
    assert ValueParts(vs[..j + 1]) == ValueParts(vs[..j]) + [Bytes(4, vs[j])];
    JoinAppend(ValueParts(vs[..j]), Bytes(4, vs[j]));
  }

  lemma ReadValuesStep(n: int, s: seq<Byte>, v: int, rest: seq<Byte>, vs: seq<int>, t: seq<Byte>)
    requires n > 0 && ReadInt(4, s) == Some(Read(v, rest)) && ReadValues(n - 1, rest) == Some(Read(vs, t))
    ensures ReadValues(n, s) == Some(Read([v] + vs, t))
  {
  }

  lemma {:induction false} ValuesReadBack(vs: seq<int>, t: seq<Byte>)
    requires forall i :: 0 <= i < |vs| ==> FitsInt(4, vs[i])
    ensures ReadValues(|vs|, ValueBytes(vs) + t) == Some(Read(vs, t))
  {
    if vs == [] {
      assert ValueBytes(vs) + t == t;
    } else {
      var b, tail := Bytes(4, vs[0]), ValueBytes(vs[1..]);
      ValuesReadBack(vs[1..], t);
      ValueBytesFirst(vs);
      Regrouped(b, tail, t);
      assert FitsInt(4, vs[0]);
      ReadsBack(4, vs[0], tail + t);
      ReadValuesStep(|vs|, ValueBytes(vs) + t, vs[0], tail + t, vs[1..], t);
      assert [vs[0]] + vs[1..] == vs;
    }
  }

  lemma Regrouped(a: seq<Byte>, b: seq<Byte>, c: seq<Byte>)
    ensures (a + b) + c == a + (b + c)
  {
  }

  lemma ResourceListBytesFirst(rs: seq<WireResource>)
    requires rs != []
    ensures ResourceListBytes(rs) == ResourceBytes(rs[0]) + ResourceListBytes(rs[1..])
  {
    assert ResourceParts(rs) == [ResourceBytes(rs[0])] + ResourceParts(rs[1..]);
    JoinFirst(ResourceBytes(rs[0]), ResourceParts(rs[1..]));
  }

  lemma ResourceListBytesAppend(rs: seq<WireResource>, j: nat)
    requires j < |rs|
    ensures ResourceListBytes(rs[..j + 1]) == ResourceListBytes(rs[..j]) + ResourceBytes(rs[j])
  {
    assert ResourceParts(rs[..j + 1]) == ResourceParts(rs[..j]) + [ResourceBytes(rs[j])];
    JoinAppend(ResourceParts(rs[..j]), ResourceBytes(rs[j]));
  }

  lemma FourParts(a: seq<Byte>, b: seq<Byte>, c: seq<Byte>, d: seq<Byte>, t: seq<Byte>)
    requires |a| == 4 && |b| == 4 && |c| == 4 && |d| == 4
    ensures var s := a + (b + (c + (d + t)));
      |s| >= 16 && s[..4] == a && s[4..8] == b && s[8..12] == c && s[12..16] == d && s[16..] == t
  {
  }

  lemma RegroupFive(a: seq<Byte>, b: seq<Byte>, c: seq<Byte>, d: seq<Byte>, v: seq<Byte>, t: seq<Byte>)
    ensures (a + (b + (c + (d + v)))) + t == a + (b + (c + (d + (v + t))))
  {
    Regrouped(a, b + (c + (d + v)), t);
    Regrouped(b, c + (d + v), t);
    Regrouped(c, d + v, t);
    Regrouped(d, v, t);
  }

  lemma QuadReadsBack(a: nat, b: int, c: int, d: int, t: seq<Byte>)
    requires FitsNat(4, a) && FitsInt(4, b) && FitsInt(4, c) && FitsInt(4, d)
    ensures ReadQuad(Bytes(4, a) + (Bytes(4, b) + (Bytes(4, c) + (Bytes(4, d) + t)))) == Some(Read(Quad(a, b, c, d), t))
  {
    FourParts(Bytes(4, a), Bytes(4, b), Bytes(4, c), Bytes(4, d), t);
    UnsignedBytesExact(4, a);
    SignedBytes(4, b);
    SignedBytes(4, c);
    SignedBytes(4, d);
  }

  lemma ResourceReadsBack(r: WireResource, t: seq<Byte>)
    requires WellFormedResource(r)
    ensures ReadResource(ResourceBytes(r) + t) == Some(Read(r, t))
  {
    var v := ValueBytes(r.values) + t;
    QuadReadsBack(r.code, r.info, r.optionalInfo, r.numValues, v);
    ValuesReadBack(r.values, t);
    RegroupFive(Bytes(4, r.code), Bytes(4, r.info), Bytes(4, r.optionalInfo), Bytes(4, r.numValues),
                ValueBytes(r.values), t);
  }

  lemma ReadResourcesStep(n: int, s: seq<Byte>, r: WireResource, rest: seq<Byte>, rs: seq<WireResource>, t: seq<Byte>)
    requires n > 0 && ReadResource(s) == Some(Read(r, rest)) && ReadResources(n - 1, rest) == Some(Read(rs, t))
    ensures ReadResources(n, s) == Some(Read([r] + rs, t))
  {
  }

  lemma {:induction false} ResourcesReadBack(rs: seq<WireResource>, t: seq<Byte>)
    requires forall i :: 0 <= i < |rs| ==> WellFormedResource(rs[i])
    ensures ReadResources(|rs|, ResourceListBytes(rs) + t) == Some(Read(rs, t))
  {
    if rs == [] {
      assert ResourceListBytes(rs) + t == t;
    } else {
      ResourcesReadBack(rs[1..], t);
      ResourceListBytesFirst(rs);
      ResourceReadsBack(rs[0], ResourceListBytes(rs[1..]) + t);
      FirstResource(|rs|, ResourceBytes(rs[0]), ResourceListBytes(rs[1..]), rs[0], rs[1..], t);
      assert [rs[0]] + rs[1..] == rs;
    }
  }

  lemma FirstResource(n: int, b: seq<Byte>, tail: seq<Byte>, r: WireResource, rs: seq<WireResource>, t: seq<Byte>)
    requires n > 0 && ReadResource(b + (tail + t)) == Some(Read(r, tail + t))
         && ReadResources(n - 1, tail + t) == Some(Read(rs, t))
    ensures ReadResources(n, (b + tail) + t) == Some(Read([r] + rs, t))
  {
    Regrouped(b, tail, t);
    ReadResourcesStep(n, b + (tail + t), r, tail + t, rs, t);
  }

  lemma HeaderReadsBack(m: WireRequest, t: seq<Byte>)
    requires WellFormed(m)
    ensures var s := HeaderBytes(m) + t;
      && |s| >= HEADER_SIZE && s[HEADER_SIZE..] == t
      && Signed(s[1..2]) == m.kind && Signed(s[2..10]) == m.handle && Signed(s[10..18]) == m.duration
      && Signed(s[18..22]) == |m.resources| && Signed(s[22..26]) == m.properties
      && Signed(s[26..30]) == m.pid && Signed(s[30..34]) == m.tid
  {
    var s := HeaderBytes(m) + t;
    assert s[1..2] == Bytes(1, m.kind) && s[2..10] == Bytes(8, m.handle) && s[10..18] == Bytes(8, m.duration);
    assert s[18..22] == Bytes(4, |m.resources|) && s[22..26] == Bytes(4, m.properties);
    assert s[26..30] == Bytes(4, m.pid) && s[30..34] == Bytes(4, m.tid);
    SignedBytes(1, m.kind);
    SignedBytes(8, m.handle);
    SignedBytes(8, m.duration);
    SignedBytes(4, |m.resources|);
    SignedBytes(4, m.properties);
    SignedBytes(4, m.pid);
    SignedBytes(4, m.tid);
  }

  // Decoding an encoded request gives it back, whatever follows in the buffer.
  lemma RequestRoundTrip(m: WireRequest, t: seq<Byte>)
    requires WellFormed(m)
    ensures DecodeRequest(RequestBytes(m) + t) == Some(m)
  {
    HeaderReadsBack(m, ResourceListBytes(m.resources) + t);
    ResourcesReadBack(m.resources, t);
    assert RequestBytes(m) + t == HeaderBytes(m) + (ResourceListBytes(m.resources) + t);
  }

  // ---- The client's side ----

  predicate CanEncode(r: SysResource) {
    r.code > 0 && r.info >= 0 && r.optionalInfo >= 0 && r.numValues > 0
  }

  function Wire(r: SysResource): WireResource {
    WireResource(r.code, r.info, r.optionalInfo, r.numValues, r.values)
  }

  function Wires(rs: seq<SysResource>): (w: seq<WireResource>)
    ensures |w| == |rs|
  {
    seq(|rs|, i requires 0 <= i < |rs| => Wire(rs[i]))
  }

  // Values follow their count, which callers must get right.
  predicate Consistent(r: SysResource) {
    r.numValues > 0 ==> |r.values| == r.numValues
  }

  method EncodeResource(batch: FlatBuffEncoder, r: SysResource) returns (ok: bool)
    requires batch.Valid() && Consistent(r)
    modifies batch`cur, batch`runningIndex, batch.buffer
    ensures batch.Valid() && ok == CanEncode(r)
    ensures ok ==> batch.Content() == Put(old(batch.Content()), ResourceBytes(Wire(r)))
  {
    if !(r.code > 0) || !(r.info >= 0) || !(r.optionalInfo >= 0) || !(r.numValues > 0) {
      return false;
    }
    ghost var c := batch.Content();
    batch.Append(Bytes(4, r.code));
    batch.Append(Bytes(4, r.info));
    batch.Append(Bytes(4, r.optionalInfo));
    batch.Append(Bytes(4, r.numValues));
    EncodeValues(batch, r.values);
    PutFive(c, Bytes(4, r.code), Bytes(4, r.info), Bytes(4, r.optionalInfo), Bytes(4, r.numValues),
            ValueBytes(r.values));
    return true;
  }

  lemma PutFive(c: Content, b1: seq<Byte>, b2: seq<Byte>, b3: seq<Byte>, b4: seq<Byte>, b5: seq<Byte>)
    ensures Put(Put(Put(Put(Put(c, b1), b2), b3), b4), b5) == Put(c, b1 + (b2 + (b3 + (b4 + b5))))
  {
    PutTwice(Put(Put(Put(c, b1), b2), b3), b4, b5);
    PutTwice(Put(Put(c, b1), b2), b3, b4 + b5);
    PutTwice(Put(c, b1), b2, b3 + (b4 + b5));
    PutTwice(c, b1, b2 + (b3 + (b4 + b5)));
  }

  lemma PutNothing(c: Content)
    requires c.Some? ==> |c.value| < REQ_BUFFER_SIZE
    ensures Put(c, []) == c
  {
    if c.Some? {
      assert c.value + [] == c.value;
    }
  }

  method EncodeValues(batch: FlatBuffEncoder, values: seq<Int32>)
    requires batch.Valid()
    modifies batch`cur, batch`runningIndex, batch.buffer
    ensures batch.Valid() && batch.Content() == Put(old(batch.Content()), ValueBytes(values))
  {
    ghost var c := batch.Content();
    PutNothing(c);
    for j := 0 to |values|
      invariant batch.Valid() && batch.buffer == old(batch.buffer)
      invariant batch.Content() == Put(c, ValueBytes(values[..j]))
    {
      batch.Append(Bytes(4, values[j]));
      PutTwice(c, ValueBytes(values[..j]), Bytes(4, values[j]));
      ValueBytesAppend(values, j);
    }
    assert values[..|values|] == values;
  }

  method EncodeResources(batch: FlatBuffEncoder, rs: seq<SysResource>) returns (ok: bool)
    requires batch.Valid() && forall r :: r in rs ==> Consistent(r)
    modifies batch`cur, batch`runningIndex, batch.buffer
    ensures batch.Valid() && (ok <==> forall r :: r in rs ==> CanEncode(r))
    ensures ok ==> batch.Content() == Put(old(batch.Content()), ResourceListBytes(Wires(rs)))
  {
    ghost var c, w := batch.Content(), Wires(rs);
    PutNothing(c);
    for i := 0 to |rs|
      invariant batch.Valid() && batch.buffer == old(batch.buffer)
      invariant forall j :: 0 <= j < i ==> CanEncode(rs[j])
      invariant batch.Content() == Put(c, ResourceListBytes(w[..i]))
    {
      var done := EncodeResource(batch, rs[i]);
      if !done {
        assert rs[i] in rs;
        return false;
      }
      PutTwice(c, ResourceListBytes(w[..i]), ResourceBytes(w[i]));
      ResourceListBytesAppend(w, i);
    }
    assert w[..|rs|] == w;
    return true;
  }

  method EncodeHeader(batch: FlatBuffEncoder, m: WireRequest)
    requires batch.Valid()
    modifies batch`cur, batch`runningIndex, batch.buffer
    ensures batch.Valid() && batch.Content() == Put(old(batch.Content()), HeaderBytes(m))
  {
    ghost var c := batch.Content();
    batch.Append(Bytes(1, MOD_RESTUNE));
    batch.Append(Bytes(1, m.kind));
    batch.Append(Bytes(8, m.handle));
    batch.Append(Bytes(8, m.duration));
    batch.Append(Bytes(4, |m.resources|));
    batch.Append(Bytes(4, m.properties));
    batch.Append(Bytes(4, m.pid));
    batch.Append(Bytes(4, m.tid));
    ghost var d := Put(Put(Put(c, Bytes(1, MOD_RESTUNE)), Bytes(1, m.kind)), Bytes(8, m.handle));
    PutFive(d, Bytes(8, m.duration), Bytes(4, |m.resources|), Bytes(4, m.properties), Bytes(4, m.pid), Bytes(4, m.tid));
    ghost var last := Bytes(8, m.duration)
      + (Bytes(4, |m.resources|) + (Bytes(4, m.properties) + (Bytes(4, m.pid) + Bytes(4, m.tid))));
    PutTwice(Put(Put(c, Bytes(1, MOD_RESTUNE)), Bytes(1, m.kind)), Bytes(8, m.handle), last);
    PutTwice(Put(c, Bytes(1, MOD_RESTUNE)), Bytes(1, m.kind), Bytes(8, m.handle) + last);
    PutTwice(c, Bytes(1, MOD_RESTUNE), Bytes(1, m.kind) + (Bytes(8, m.handle) + last));
  }

  // The bytes go out padded to the size of the buffer, if they fit.
  function Sent(bytes: seq<Byte>): Option<seq<Byte>> {
    if |bytes| < REQ_BUFFER_SIZE then Some(bytes + Zeros(REQ_BUFFER_SIZE - |bytes|)) else None
  }

  method NewBuffer(batch: FlatBuffEncoder) returns (buf: array<Byte>)
    modifies batch
    ensures fresh(buf) && buf.Length == REQ_BUFFER_SIZE && batch.buffer == buf && batch.Valid()
         && batch.Content() == Some([])
  {
    buf := new Byte[REQ_BUFFER_SIZE](_ => 0);
    batch.SetBuf(buf);
  }

  method SendIfSane(batch: FlatBuffEncoder, buf: array<Byte>, ghost bytes: seq<Byte>) returns (sent: Option<seq<Byte>>)
    requires batch.Valid() && batch.buffer == buf && batch.Content() == Put(Some([]), bytes)
    ensures sent == Sent(bytes)
  {
    assert [] + bytes == bytes;
    var sane := batch.IsBufSane();
    if sane {
      sent := Some(buf[..]);
      assert buf[..] == bytes + Zeros(REQ_BUFFER_SIZE - |bytes|);
    } else {
      sent := None;
    }
  }

  predicate ValidTune(duration: Int64, properties: Int32, numRes: Int32, resourceList: Option<seq<SysResource>>) {
    && resourceList.Some? && 0 < numRes <= MAX_RES_PER_REQ && duration != 0 && duration >= -1 && properties >= 0
    && numRes <= |resourceList.value| && forall r :: r in resourceList.value[..numRes] ==> CanEncode(r)
  }

  function TuneMessage(duration: Int64, properties: Int32, resources: seq<SysResource>, pid: Int32,
                       tid: Int32): WireRequest {
    WireRequest(REQ_RESOURCE_TUNING, 0, duration, properties, pid, tid, Wires(resources))
  }

  // r says what the caller of a tune said, field by field.
  predicate SaysTune(r: WireRequest, duration: Int64, properties: Int32, resources: seq<SysResource>, pid: Int32,
                     tid: Int32) {
    && r.kind == REQ_RESOURCE_TUNING && r.handle == 0 && r.duration == duration && r.properties == properties
    && r.pid == pid && r.tid == tid && |r.resources| == |resources|
    && forall i :: 0 <= i < |resources| ==> SaysResource(r.resources[i], resources[i])
  }

  predicate SaysResource(w: WireResource, r: SysResource) {
    && w.code == r.code && w.info == r.info && w.optionalInfo == r.optionalInfo && w.numValues == r.numValues
    && w.values == r.values
  }

  // The length of such a request: a header, and four numbers and the values of
  // each resource.
  function TuneSize(resources: seq<SysResource>): nat {
    if resources == [] then 34
    else TuneSize(resources[..|resources| - 1]) + 4 * (4 + |resources[|resources| - 1].values|)
  }

  // Sends a tune request, unless it is malformed or too long. What the server
  // decodes is what the caller said.
  method TuneResources(batch: FlatBuffEncoder, duration: Int64, properties: Int32, numRes: Int32,
                       resourceList: Option<seq<SysResource>>, pid: Int32, tid: Int32) returns (sent: Option<seq<Byte>>)
    requires resourceList.Some? ==>
               numRes <= |resourceList.value| && forall r :: r in resourceList.value ==> Consistent(r)
    modifies batch
    ensures sent == if ValidTune(duration, properties, numRes, resourceList)
                    then Sent(RequestBytes(TuneMessage(duration, properties, resourceList.value[..numRes], pid, tid)))
                      else None
    ensures sent.Some? <==> ValidTune(duration, properties, numRes, resourceList)
                            && TuneSize(resourceList.value[..numRes]) < REQ_BUFFER_SIZE
    ensures sent.Some? ==>
              && |sent.value| == REQ_BUFFER_SIZE && DecodeRequest(sent.value).Some?
              && SaysTune(DecodeRequest(sent.value).value, duration, properties, resourceList.value[..numRes], pid, tid)
  {
    if resourceList == None || numRes <= 0 || duration == 0 || duration < -1 {
      return None;
    }
    if numRes > MAX_RES_PER_REQ {
      return None;
    }
    if !(properties >= 0) {
      return None;
    }
    var rs := resourceList.value[..numRes];
    ghost var m := TuneMessage(duration, properties, rs, pid, tid);
    var buf := NewBuffer(batch);
    EncodeHeader(batch, WireRequest(REQ_RESOURCE_TUNING, 0, duration, properties, pid, tid, Wires(rs)));
    var ok := EncodeResources(batch, rs);
    if !ok {
      return None;
    }
    PutTwice(Some([]), HeaderBytes(m), ResourceListBytes(m.resources));
    TuneArrives(duration, properties, rs, pid, tid);
    sent := SendIfSane(batch, buf, RequestBytes(m));
  }

  method SendPlain(batch: FlatBuffEncoder, m: WireRequest) returns (sent: Option<seq<Byte>>)
    requires m.resources == []
    modifies batch
    ensures sent == Sent(RequestBytes(m))
  {
    var buf := NewBuffer(batch);
    EncodeHeader(batch, m);
    assert RequestBytes(m) == HeaderBytes(m);
    sent := SendIfSane(batch, buf, RequestBytes(m));
  }

  method RetuneResources(batch: FlatBuffEncoder, handle: Int64, duration: Int64, pid: Int32, tid: Int32)
    returns (sent: Option<seq<Byte>>)
    modifies batch
    ensures sent == if handle > 0 && duration != 0 && duration >= -1
                    then Sent(RequestBytes(WireRequest(REQ_RESOURCE_RETUNING, handle, duration, 0, pid, tid, [])))
                      else None
  {
    if handle <= 0 || duration == 0 || duration < -1 {
      return None;
    }
    sent := SendPlain(batch, WireRequest(REQ_RESOURCE_RETUNING, handle, duration, 0, pid, tid, []));
  }

  method UntuneResources(batch: FlatBuffEncoder, handle: Int64, pid: Int32, tid: Int32)
    returns (sent: Option<seq<Byte>>)
    modifies batch
    ensures sent == if handle > 0
         then Sent(RequestBytes(WireRequest(REQ_RESOURCE_UNTUNING, handle, -1, 0, pid, tid, []))) else None
  {
    if handle <= 0 {
      return None;
    }
    sent := SendPlain(batch, WireRequest(REQ_RESOURCE_UNTUNING, handle, -1, 0, pid, tid, []));
  }

  // ---- The server's side ----

  class Request {
    var reqType: int
    var handle: int
    var duration: int
    var properties: int
    var clientPid: int
    var clientTid: int
    var resources: seq<WireResource>

    constructor ()
      ensures resources == []
    {
      reqType, handle, duration, properties, clientPid, clientTid, resources := 0, 0, 0, 0, 0, 0, [];
    }

    function View(): WireRequest
      reads this
    {
      WireRequest(reqType, handle, duration, properties, clientPid, clientTid, resources)
    }

    // Fills a new request from a buffer.
    method Deserialize(buf: array<Byte>)
      requires DecodeRequest(buf[..]).Some? && resources == []
      modifies this
      ensures View() == DecodeRequest(buf[..]).value
    {
      reqType := Signed(buf[1..2]);
      handle := Signed(buf[2..10]);
      duration := Signed(buf[10..18]);
      var numResources := Signed(buf[18..22]);
      properties := Signed(buf[22..26]);
      clientPid := Signed(buf[26..30]);
      clientTid := Signed(buf[30..34]);
      SameSlices(buf);
      if reqType == REQ_RESOURCE_TUNING {
        ghost var all := ReadResources(numResources, buf[HEADER_SIZE..]).value.value;
        AllToRead(buf[..], HEADER_SIZE, numResources, all);
        DecodeResources(buf, numResources, buf[..], all);
      }
    }

    method DecodeResources(buf: array<Byte>, numResources: int, ghost s: seq<Byte>, ghost all: seq<WireResource>)
      requires s == buf[..] && resources == [] && StillToRead(s, HEADER_SIZE, numResources, [], all)
      modifies this`resources
      ensures resources == all
    {
      var i := 0;
      var cur: nat := HEADER_SIZE;
      while i < numResources
        invariant 0 <= i && (i <= numResources || i == 0)
        invariant StillToRead(s, cur, numResources - i, resources, all)
        decreases numResources - i
      {
        var r, next := DecodeNextResource(buf, cur, numResources - i, s, resources, all);
        resources := resources + [r];
        cur := next;
        i := i + 1;
      }
      NothingToRead(s, cur, numResources - i, resources, all);
    }
  }

  // Reading the resources left from the cursor on, behind those read, gives all.
  ghost predicate StillToRead(s: seq<Byte>, cur: nat, left: int, done: seq<WireResource>, all: seq<WireResource>) {
    cur <= |s| && ReadResources(left, s[cur..]).Some? && all == done + ReadResources(left, s[cur..]).value.value
  }

  lemma AllToRead(s: seq<Byte>, cur: nat, n: int, all: seq<WireResource>)
    requires cur <= |s| && ReadResources(n, s[cur..]).Some? && all == ReadResources(n, s[cur..]).value.value
    ensures StillToRead(s, cur, n, [], all)
  {
    assert all == [] + all;
  }

  lemma NothingToRead(s: seq<Byte>, cur: nat, left: int, done: seq<WireResource>, all: seq<WireResource>)
    requires left <= 0 && StillToRead(s, cur, left, done, all)
    ensures done == all
  {
    assert done + [] == done;
  }

  method DecodeNextResource(buf: array<Byte>, cur: nat, left: int, ghost s: seq<Byte>, ghost done: seq<WireResource>,
                            ghost all: seq<WireResource>) returns (r: WireResource, next: nat)
    requires left > 0 && s == buf[..] && StillToRead(s, cur, left, done, all)
    ensures StillToRead(s, next, left - 1, done + [r], all)
  {
    assert s[cur..] == buf[cur..];
    r, next := DecodeResource(buf, cur);
    assert s[next..] == buf[next..];
    ghost var rest := ReadResources(left - 1, buf[next..]).value.value;
    assert done + ([r] + rest) == (done + [r]) + rest;
  }

  lemma SameSlices(buf: array<Byte>)
    requires buf.Length >= HEADER_SIZE
    ensures buf[1..2] == buf[..][1..2] && buf[2..10] == buf[..][2..10] && buf[10..18] == buf[..][10..18]
    ensures buf[18..22] == buf[..][18..22] && buf[22..26] == buf[..][22..26] && buf[26..30] == buf[..][26..30]
    ensures buf[30..34] == buf[..][30..34] && buf[HEADER_SIZE..] == buf[..][HEADER_SIZE..]
  {
  }

  method DecodeResource(buf: array<Byte>, cur: nat) returns (r: WireResource, next: nat)
    requires cur <= buf.Length && ReadResource(buf[cur..]).Some?
    ensures cur <= next <= buf.Length && ReadResource(buf[cur..]) == Some(Read(r, buf[next..]))
  {
    var a, b, c, n := Unsigned(buf[cur..cur + 4]), Signed(buf[cur + 4..cur + 8]), Signed(buf[cur + 8..cur + 12]),
        Signed(buf[cur + 12..cur + 16]);
    ghost var s := buf[cur..];
    assert s[..4] == buf[cur..cur + 4] && s[4..8] == buf[cur + 4..cur + 8] && s[8..12] == buf[cur + 8..cur + 12];
    assert s[12..16] == buf[cur + 12..cur + 16] && s[16..] == buf[cur + 16..];
    var values: seq<int>;
    values, next := DecodeValues(buf, cur + 16, n);
    r := WireResource(a, b, c, n, values);
  }

  ghost predicate ValuesToRead(buf: array<Byte>, cur: nat, left: int, done: seq<int>, all: Read<seq<int>>)
    reads buf
  {
    && cur <= buf.Length && ReadValues(left, buf[cur..]).Some?
    && all.value == done + ReadValues(left, buf[cur..]).value.value
    && all.rest == ReadValues(left, buf[cur..]).value.rest
  }

  method DecodeNextValue(buf: array<Byte>, cur: nat, left: int, ghost done: seq<int>, ghost all: Read<seq<int>>)
    returns (v: int)
    requires left > 0 && ValuesToRead(buf, cur, left, done, all)
    ensures ValuesToRead(buf, cur + 4, left - 1, done + [v], all)
  {
    v := Signed(buf[cur..cur + 4]);
    ghost var s := buf[cur..];
    assert s[..4] == buf[cur..cur + 4] && s[4..] == buf[cur + 4..];
    ghost var rest := ReadValues(left - 1, buf[cur + 4..]).value.value;
    assert done + ([v] + rest) == (done + [v]) + rest;
  }

  lemma NoValuesToRead(buf: array<Byte>, cur: nat, left: int, done: seq<int>, all: Read<seq<int>>)
    requires left <= 0 && ValuesToRead(buf, cur, left, done, all)
    ensures all == Read(done, buf[cur..])
  {
    assert done + [] == done;
  }

  method DecodeValues(buf: array<Byte>, start: nat, n: int) returns (values: seq<int>, next: nat)
    requires start <= buf.Length && ReadValues(n, buf[start..]).Some?
    ensures start <= next <= buf.Length && ReadValues(n, buf[start..]) == Some(Read(values, buf[next..]))
  {
    var j := 0;
    values, next := [], start;
    ghost var all := ReadValues(n, buf[start..]).value;
    assert all.value == [] + all.value;
    while j < n
      invariant 0 <= j && (j <= n || j == 0) && start <= next
      invariant ValuesToRead(buf, next, n - j, values, all)
      decreases n - j
    {
      var v := DecodeNextValue(buf, next, n - j, values, all);
      values := values + [v];
      next := next + 4;
      j := j + 1;
    }
    NoValuesToRead(buf, next, n - j, values, all);
  }

  // ---- End to end ----

  lemma TuneIsWellFormed(duration: Int64, properties: Int32, resources: seq<SysResource>, pid: Int32, tid: Int32)
    requires |resources| <= MAX_RES_PER_REQ && forall r :: r in resources ==> Consistent(r) && CanEncode(r)
    ensures WellFormed(TuneMessage(duration, properties, resources, pid, tid))
  {
    Widths();
    var m := TuneMessage(duration, properties, resources, pid, tid);
    forall i | 0 <= i < |m.resources| ensures WellFormedResource(m.resources[i]) {
      assert resources[i] in resources;
    }
  }

  // The server reads from the buffer of a tune call that was sent exactly what
  // the caller passed, and a call is sent exactly when its encoding is short enough.
  lemma TuneArrives(duration: Int64, properties: Int32, resources: seq<SysResource>, pid: Int32, tid: Int32)
    requires |resources| <= MAX_RES_PER_REQ && forall r :: r in resources ==> Consistent(r) && CanEncode(r)
    ensures var sent := Sent(RequestBytes(TuneMessage(duration, properties, resources, pid, tid)));
      && (sent.Some? <==> TuneSize(resources) < REQ_BUFFER_SIZE)
      && (sent.Some? ==>
            && |sent.value| == REQ_BUFFER_SIZE && DecodeRequest(sent.value).Some?
            && SaysTune(DecodeRequest(sent.value).value, duration, properties, resources, pid, tid))
  {
    var m := TuneMessage(duration, properties, resources, pid, tid);
    TuneIsWellFormed(duration, properties, resources, pid, tid);
    RequestSize(m);
    WiresSize(resources);
    if |RequestBytes(m)| < REQ_BUFFER_SIZE {
      RequestRoundTrip(m, Zeros(REQ_BUFFER_SIZE - |RequestBytes(m)|));
    }
  }

  lemma {:induction false} WiresSize(resources: seq<SysResource>)
    ensures HEADER_SIZE + ListSize(Wires(resources)) == TuneSize(resources)
  {
    if resources != [] {
      var n := |resources| - 1;
      WiresSize(resources[..n]);
      assert Wires(resources)[..n] == Wires(resources[..n]);
    }
  }

  // Retune and untune requests always fit.
  lemma HandleArrives(kind: int, handle: Int64, duration: Int64, pid: Int32, tid: Int32)
    requires kind == REQ_RESOURCE_RETUNING || kind == REQ_RESOURCE_UNTUNING
    ensures var m := WireRequest(kind, handle, duration, 0, pid, tid, []);
      Sent(RequestBytes(m)).Some? && DecodeRequest(Sent(RequestBytes(m)).value) == Some(m)
  {
    Widths();
    var m := WireRequest(kind, handle, duration, 0, pid, tid, []);
    assert |RequestBytes(m)| == HEADER_SIZE;
    RequestRoundTrip(m, Zeros(REQ_BUFFER_SIZE - |RequestBytes(m)|));
  }

  // How long the encoding of a request is.
  lemma RequestSize(m: WireRequest)
    ensures |RequestBytes(m)| == HEADER_SIZE + ListSize(m.resources)
  {
    ListBytesSize(m.resources);
  }

  function ListSize(rs: seq<WireResource>): nat {
    if rs == [] then 0 else ListSize(rs[..|rs| - 1]) + 16 + 4 * |rs[|rs| - 1].values|
  }

  lemma {:induction false} ListBytesSize(rs: seq<WireResource>)
    ensures |ResourceListBytes(rs)| == ListSize(rs)
  {
    if rs != [] {
      var n := |rs| - 1;
      ListBytesSize(rs[..n]);
      ValueBytesSize(rs[n].values);
      ResourceListBytesAppend(rs, n);
      assert rs[..n + 1] == rs;
    }
  }

  lemma {:induction false} ValueBytesSize(vs: seq<int>)
    ensures |ValueBytes(vs)| == 4 * |vs|
  {
    if vs != [] {
      ValueBytesSize(vs[1..]);
      ValueBytesFirst(vs);
    }
  }

  // ---- The layout ----

  // Byte by byte, the n bytes of v stand at some place, the low one first.
  ghost predicate Stands(s: seq<Byte>, at: nat, n: nat, v: int) {
    at + n <= |s| && forall i :: 0 <= i < n ==> s[at + i] == (v / Pow256(i)) % 256
  }

  lemma BytesStand(s: seq<Byte>, at: nat, n: nat, v: int)
    requires at + n <= |s| && s[at..at + n] == Bytes(n, v)
    ensures Stands(s, at, n, v)
  {
    forall i | 0 <= i < n ensures s[at + i] == (v / Pow256(i)) % 256 {
      ByteAt(n, v, i);
      assert s[at..at + n][i] == s[at + i];
    }
  }

  // Where the fields of the header stand, in the order the API documents.
  lemma HeaderLayout(m: WireRequest)
    ensures var s := RequestBytes(m);
      && Stands(s, 0, 1, 0) && Stands(s, 1, 1, m.kind) && Stands(s, 2, 8, m.handle) && Stands(s, 10, 8, m.duration)
      && Stands(s, 18, 4, |m.resources|) && Stands(s, 22, 4, m.properties) && Stands(s, 26, 4, m.pid)
      && Stands(s, 30, 4, m.tid)
  {
    var s := RequestBytes(m);
    assert s[0..1] == Bytes(1, 0) && s[1..2] == Bytes(1, m.kind) && s[2..10] == Bytes(8, m.handle);
    assert s[10..18] == Bytes(8, m.duration) && s[18..22] == Bytes(4, |m.resources|);
    assert s[22..26] == Bytes(4, m.properties) && s[26..30] == Bytes(4, m.pid) && s[30..34] == Bytes(4, m.tid);
    BytesStand(s, 0, 1, 0);
    BytesStand(s, 1, 1, m.kind);
    BytesStand(s, 2, 8, m.handle);
    BytesStand(s, 10, 8, m.duration);
    BytesStand(s, 18, 4, |m.resources|);
    BytesStand(s, 22, 4, m.properties);
    BytesStand(s, 26, 4, m.pid);
    BytesStand(s, 30, 4, m.tid);
  }

  // Resource i starts where the ones before it end, with four numbers; its
  // values follow.
  lemma ResourceLayout(m: WireRequest, i: nat, j: nat)
    requires i < |m.resources| && j < |m.resources[i].values|
    ensures var s, at, r := RequestBytes(m), HEADER_SIZE + ListSize(m.resources[..i]), m.resources[i];
      && Stands(s, at, 4, r.code) && Stands(s, at + 4, 4, r.info) && Stands(s, at + 8, 4, r.optionalInfo)
      && Stands(s, at + 12, 4, r.numValues) && Stands(s, at + 16 + 4 * j, 4, r.values[j])
  {
    var s, at, r := RequestBytes(m), HEADER_SIZE + ListSize(m.resources[..i]), m.resources[i];
    ListSplit(m.resources, i);
    ListBytesSize(m.resources[..i]);
    var front, back := HeaderBytes(m) + ResourceListBytes(m.resources[..i]), ResourceListBytes(m.resources[i + 1..]);
    assert s == front + (ResourceBytes(r) + back) && |front| == at;
    ResourceStands(front, r, back, j);
  }

  lemma ResourceStands(front: seq<Byte>, r: WireResource, back: seq<Byte>, j: nat)
    requires j < |r.values|
    ensures var s, at := front + (ResourceBytes(r) + back), |front|;
      && Stands(s, at, 4, r.code) && Stands(s, at + 4, 4, r.info) && Stands(s, at + 8, 4, r.optionalInfo)
      && Stands(s, at + 12, 4, r.numValues) && Stands(s, at + 16 + 4 * j, 4, r.values[j])
  {
    var b := ResourceBytes(r);
    FourParts(Bytes(4, r.code), Bytes(4, r.info), Bytes(4, r.optionalInfo), Bytes(4, r.numValues),
              ValueBytes(r.values));
    ValueStands(r.values, j);
    StandsWithin(front, b, back, 0, 4, r.code);
    StandsWithin(front, b, back, 4, 4, r.info);
    StandsWithin(front, b, back, 8, 4, r.optionalInfo);
    StandsWithin(front, b, back, 12, 4, r.numValues);
    assert b[16..][4 * j..4 * j + 4] == b[16 + 4 * j..16 + 4 * j + 4];
    StandsWithin(front, b, back, 16 + 4 * j, 4, r.values[j]);
  }

  lemma StandsWithin(front: seq<Byte>, b: seq<Byte>, back: seq<Byte>, at: nat, n: nat, v: int)
    requires at + n <= |b| && b[at..at + n] == Bytes(n, v)
    ensures Stands(front + (b + back), |front| + at, n, v)
  {
    var s := front + (b + back);
    assert s[|front| + at..|front| + at + n] == b[at..at + n];
    BytesStand(s, |front| + at, n, v);
  }

  lemma {:induction false} ValueStands(vs: seq<int>, j: nat)
    requires j < |vs|
    ensures 4 * j + 4 <= |ValueBytes(vs)| && ValueBytes(vs)[4 * j..4 * j + 4] == Bytes(4, vs[j])
  {
    ValueBytesFirst(vs);
    if j > 0 {
      ValueStands(vs[1..], j - 1);
    }
  }

  lemma {:induction false} ListSplit(rs: seq<WireResource>, i: nat)
    requires i < |rs|
    ensures ResourceListBytes(rs)
         == ResourceListBytes(rs[..i]) + (ResourceBytes(rs[i]) + ResourceListBytes(rs[i + 1..]))
  {
    ResourceListBytesFirst(rs);
    if i == 0 {
      assert [] + ResourceListBytes(rs) == ResourceListBytes(rs);
    } else {
      var first, back := ResourceBytes(rs[0]), ResourceBytes(rs[i]) + ResourceListBytes(rs[i + 1..]);
      ListSplit(rs[1..], i - 1);
      ResourceListBytesFirst(rs[..i]);
      assert rs[1..][..i - 1] == rs[..i][1..] && rs[1..][i..] == rs[i + 1..];
      Regrouped(first, ResourceListBytes(rs[..i][1..]), back);
    }
  }
}
