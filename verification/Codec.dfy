/** Encoding and decoding of pose frames at the level of JSON values (codec.py). */
module Codec {
  import opened Prelude
  import F = Frames

  /** JSON has one kind of number, its reader two: with and without a fraction. */
  datatype Number = Int(i: int) | Float(r: real)

  /** The member names of the wire format; any other name is ignored. */
  datatype Key =
    | SchemaVersion | Seq | CapturedAt | Status | Pose
    | GlobalOrient | BodyPose | LeftHandPose | RightHandPose | JawPose | Betas | Expression | Transl
    | OtherKey(text: string)

  datatype Json =
    | Null
    | Bool(b: bool)
    | Num(n: Number)
    | Str(s: string)
    | Arr(items: seq<Json>)
    | Obj(fields: map<Key, Json>)

  type WireFrame = F.PoseFrame<Number>
  type WirePayload = F.PosePayload<Number>
  type Frame = F.PoseFrame<real>
  type Payload = F.PosePayload<real>

  /* ---- encoding ---- */

  function Row(xs: seq<Number>): Json { Arr(seq(|xs|, i requires 0 <= i < |xs| => Num(xs[i]))) }

  function Rows(rows: seq<seq<Number>>): Json { Arr(seq(|rows|, i requires 0 <= i < |rows| => Row(rows[i]))) }

  function EncodePayload(p: WirePayload): Json {
    Obj(map[GlobalOrient := Row(p.globalOrient), BodyPose := Rows(p.bodyPose), LeftHandPose := Rows(p.leftHandPose),
            RightHandPose := Rows(p.rightHandPose), JawPose := Row(p.jawPose), Betas := Row(p.betas),
            Expression := Row(p.expression), Transl := Row(p.transl)])
  }

  /** The wire form of a frame; a pose without status "ok", or the reverse, raises. */
  function Encode(f: WireFrame): Result<Json> {
    if (f.status == "ok") != f.pose.Some? then Err("status is inconsistent with pose presence")
    else Ok(Obj(map[
      SchemaVersion := Num(Int(f.schemaVersion)),
      Seq := Num(Int(f.seqNumber)),
      CapturedAt := Num(f.capturedAt),
      Status := Str(f.status),
      Pose := if f.pose.Some? then EncodePayload(f.pose.value) else Null]))
  }

  /* ---- decoding ---- */

  /** A missing member reads as null. */
  function Get(raw: map<Key, Json>, key: Key): Json { if key in raw then raw[key] else Null }

  function RequireInt(raw: map<Key, Json>, key: Key): Result<int> {
    var value := Get(raw, key);
    if value.Num? && value.n.Int? then Ok(value.n.i) else Err("must be an integer")
  }

  function AsReal(n: Number): real { if n.Int? then n.i as real else n.r }

  function RequireNumber(raw: map<Key, Json>, key: Key): Result<real> {
    var value := Get(raw, key);
    if value.Num? then Ok(AsReal(value.n)) else Err("must be a number")
  }

  function RequireStatus(raw: map<Key, Json>): Result<string> {
    var value := Get(raw, Status);
    if value == Str("ok") then Ok("ok")
    else if value == Str("no_person") then Ok("no_person")
    else Err("status must be 'ok' or 'no_person'")
  }

  predicate AllNumbers(items: seq<Json>) { forall i | 0 <= i < |items| :: items[i].Num? }

  predicate IsRow(j: Json, length: nat) { j.Arr? && |j.items| == length && AllNumbers(j.items) }

  function Reals(items: seq<Json>): seq<real>
    requires AllNumbers(items)
  {
    seq(|items|, i requires 0 <= i < |items| => AsReal(items[i].n))
  }

  /** A list of exactly `length` numbers. */
  function FloatsOf(j: Json, length: nat): Result<seq<real>> {
    if !j.Arr? || |j.items| != length then Err("must be a list of numbers")
    else if !AllNumbers(j.items) then Err("must contain only numbers")
    else Ok(Reals(j.items))
  }

  /** The same, number by number. */
  method Floats(raw: map<Key, Json>, key: Key, length: nat) returns (r: Result<seq<real>>)
    ensures r == FloatsOf(Get(raw, key), length)
  {
    var value := Get(raw, key);
    if !value.Arr? { return Err("must be a list of numbers"); }
    var items := value.items;
    if |items| != length { return Err("must be a list of numbers"); }
    var result: seq<real> := [];
    for i := 0 to |items|
      invariant |result| == i
      invariant forall k | 0 <= k < i :: items[k].Num? && result[k] == AsReal(items[k].n)
    {
      if !items[i].Num? { return Err("must contain only numbers"); }
      result := result + [AsReal(items[i].n)];
    }
    assert AllNumbers(items) && result == Reals(items);
    r := Ok(result);
  }

  predicate IsMatrix(j: Json, rows: nat) {
    j.Arr? && |j.items| == rows && forall i | 0 <= i < rows :: IsRow(j.items[i], 3)
  }

  /** A list of exactly `rows` triples. */
  function MatrixOf(j: Json, rows: nat): Result<seq<seq<real>>> {
    if !j.Arr? || |j.items| != rows then Err("must be a list of vectors")
    else if exists i | 0 <= i < rows :: FloatsOf(j.items[i], 3).Err? then Err("must be a list of numbers")
    else Ok(seq(rows, i requires 0 <= i < rows => FloatsOf(j.items[i], 3).value))
  }

  function DecodePayload(j: Json): Result<Payload> {
    if !j.Obj? then Err("pose must be a JSON object")
    else
      var raw := j.fields;
      var globalOrient := FloatsOf(Get(raw, GlobalOrient), 3);
      var bodyPose := MatrixOf(Get(raw, BodyPose), F.NUM_BODY_JOINTS);
      var leftHandPose := MatrixOf(Get(raw, LeftHandPose), F.NUM_HAND_JOINTS);
      var rightHandPose := MatrixOf(Get(raw, RightHandPose), F.NUM_HAND_JOINTS);
      var jawPose := FloatsOf(Get(raw, JawPose), 3);
      var betas := FloatsOf(Get(raw, Betas), F.NUM_BETAS);
      var expression := FloatsOf(Get(raw, Expression), F.NUM_EXPRESSION);
      var transl := FloatsOf(Get(raw, Transl), 3);
      if globalOrient.Err? then Err(globalOrient.error)
      else if bodyPose.Err? then Err(bodyPose.error)
      else if leftHandPose.Err? then Err(leftHandPose.error)
      else if rightHandPose.Err? then Err(rightHandPose.error)
      else if jawPose.Err? then Err(jawPose.error)
      else if betas.Err? then Err(betas.error)
      else if expression.Err? then Err(expression.error)
      else if transl.Err? then Err(transl.error)
      else Ok(F.PosePayload(globalOrient.value, bodyPose.value, leftHandPose.value, rightHandPose.value,
                            jawPose.value, betas.value, expression.value, transl.value))
  }

  /** Validate one wire value; any violation raises. */
  function Decode(j: Json): Result<Frame> {
    if !j.Obj? then Err("frame must be a JSON object")
    else
      var raw := j.fields;
      var schemaVersion := RequireInt(raw, SchemaVersion);
      if schemaVersion.Err? then Err(schemaVersion.error)
      else if schemaVersion.value != F.SCHEMA_VERSION then Err("unsupported schema_version")
      else
        var seqNumber, capturedAt, status := RequireInt(raw, Seq), RequireNumber(raw, CapturedAt), RequireStatus(raw);
        if seqNumber.Err? then Err(seqNumber.error)
        else if capturedAt.Err? then Err(capturedAt.error)
        else if status.Err? then Err(status.error)
        else
          var pose := Get(raw, Pose);
          if status.value == "no_person" then
            if pose != Null then Err("a no_person frame must not carry a pose")
            else Ok(F.PoseFrame(schemaVersion.value, seqNumber.value, capturedAt.value, status.value, None))
          else if pose == Null then Err("an ok frame requires a pose")
          else
            var payload := DecodePayload(pose);
            if payload.Err? then Err(payload.error)
            else Ok(F.PoseFrame(schemaVersion.value, seqNumber.value, capturedAt.value, status.value,
                                Some(payload.value)))
  }

  /* ---- the decoder accepts exactly the schema ---- */

  predicate ValidPayload(j: Json) {
    && j.Obj?
    && IsRow(Get(j.fields, GlobalOrient), 3) && IsRow(Get(j.fields, JawPose), 3) && IsRow(Get(j.fields, Transl), 3)
    && IsRow(Get(j.fields, Betas), F.NUM_BETAS) && IsRow(Get(j.fields, Expression), F.NUM_EXPRESSION)
    && IsMatrix(Get(j.fields, BodyPose), F.NUM_BODY_JOINTS)
    && IsMatrix(Get(j.fields, LeftHandPose), F.NUM_HAND_JOINTS)
    && IsMatrix(Get(j.fields, RightHandPose), F.NUM_HAND_JOINTS)
  }

  /** The wire schema. */
  predicate ValidFrame(j: Json) {
    && j.Obj?
    && Get(j.fields, SchemaVersion) == Num(Int(F.SCHEMA_VERSION))
    && Get(j.fields, Seq).Num? && Get(j.fields, Seq).n.Int?
    && Get(j.fields, CapturedAt).Num?
    && (if Get(j.fields, Status) == Str("no_person") then Get(j.fields, Pose) == Null
        else Get(j.fields, Status) == Str("ok") && ValidPayload(Get(j.fields, Pose)))
  }

  /** What a decoded frame always satisfies. */
  predicate WellFormed(f: Frame) {
    && f.schemaVersion == F.SCHEMA_VERSION
    && (f.status == "ok" || f.status == "no_person")
    && (f.status == "ok" <==> f.pose.Some?)
    && (f.pose.Some? ==> F.WellShaped(f.pose.value))
  }

  lemma FloatsExactly(j: Json, length: nat)
    ensures FloatsOf(j, length).Ok? <==> IsRow(j, length)
    ensures FloatsOf(j, length).Ok? ==> |FloatsOf(j, length).value| == length
  {}

  lemma MatrixExactly(j: Json, rows: nat)
    ensures MatrixOf(j, rows).Ok? <==> IsMatrix(j, rows)
    ensures MatrixOf(j, rows).Ok? ==> F.Rows(MatrixOf(j, rows).value, rows)
  {
    hide FloatsOf; hide IsRow;
    if j.Arr? && |j.items| == rows {
      forall i | 0 <= i < rows
        ensures FloatsOf(j.items[i], 3).Ok? <==> IsRow(j.items[i], 3)
        ensures FloatsOf(j.items[i], 3).Ok? ==> |FloatsOf(j.items[i], 3).value| == 3
      {
        FloatsExactly(j.items[i], 3);
      }
    }
  }

  lemma PayloadExactly(j: Json)
    ensures DecodePayload(j).Ok? <==> ValidPayload(j)
    ensures DecodePayload(j).Ok? ==> F.WellShaped(DecodePayload(j).value)
  {
    hide FloatsOf; hide IsRow; hide MatrixOf; hide IsMatrix; hide Get; hide F.Rows;
    if j.Obj? {
      var raw := j.fields;
      FloatsExactly(Get(raw, GlobalOrient), 3);
      FloatsExactly(Get(raw, JawPose), 3);
      FloatsExactly(Get(raw, Transl), 3);
      FloatsExactly(Get(raw, Betas), F.NUM_BETAS);
      FloatsExactly(Get(raw, Expression), F.NUM_EXPRESSION);
      MatrixExactly(Get(raw, BodyPose), F.NUM_BODY_JOINTS);
      MatrixExactly(Get(raw, LeftHandPose), F.NUM_HAND_JOINTS);
      MatrixExactly(Get(raw, RightHandPose), F.NUM_HAND_JOINTS);
    }
  }

  /** The decoder accepts exactly the wire schema, and what it returns is well formed. */
  lemma DecodeExactly(j: Json)
    ensures Decode(j).Ok? <==> ValidFrame(j)
    ensures Decode(j).Ok? ==> WellFormed(Decode(j).value)
  {
    hide Get; hide DecodePayload; hide ValidPayload; hide F.WellShaped;
    if j.Obj? {
      PayloadExactly(Get(j.fields, Pose));
      NoNullPayload();
    }
  }

  lemma NoNullPayload()
    ensures !ValidPayload(Null)
  {}

  /* ---- which member holds what ---- */

  /** The real a number stands for. */
  predicate Stands(x: real, n: Number) {
    match n
    case Int(i) => x == i as real
    case Float(r) => x == r
  }

  /** The JSON list holds these numbers, read as reals. */
  predicate HoldsRow(j: Json, xs: seq<real>) {
    j.Arr? && |j.items| == |xs| && forall i | 0 <= i < |xs| :: j.items[i].Num? && Stands(xs[i], j.items[i].n)
  }

  predicate HoldsRows(j: Json, rows: seq<seq<real>>) {
    j.Arr? && |j.items| == |rows| && forall i | 0 <= i < |rows| :: HoldsRow(j.items[i], rows[i])
  }

  /** The JSON object holds the payload, array by array under its own name. */
  predicate HoldsPayload(j: Json, p: Payload) {
    && j.Obj?
    && {GlobalOrient, BodyPose, LeftHandPose, RightHandPose, JawPose, Betas, Expression, Transl} <= j.fields.Keys
    && HoldsRow(j.fields[GlobalOrient], p.globalOrient) && HoldsRows(j.fields[BodyPose], p.bodyPose)
    && HoldsRows(j.fields[LeftHandPose], p.leftHandPose) && HoldsRows(j.fields[RightHandPose], p.rightHandPose)
    && HoldsRow(j.fields[JawPose], p.jawPose) && HoldsRow(j.fields[Betas], p.betas)
    && HoldsRow(j.fields[Expression], p.expression) && HoldsRow(j.fields[Transl], p.transl)
  }

  predicate HoldsFrame(j: Json, f: Frame) {
    && j.Obj? && {SchemaVersion, Seq, CapturedAt, Status} <= j.fields.Keys
    && j.fields[SchemaVersion] == Num(Int(f.schemaVersion)) && j.fields[Seq] == Num(Int(f.seqNumber))
    && j.fields[CapturedAt].Num? && Stands(f.capturedAt, j.fields[CapturedAt].n)
    && j.fields[Status] == Str(f.status)
    && match f.pose
       case None => Pose !in j.fields || j.fields[Pose] == Null
       case Some(p) => Pose in j.fields && HoldsPayload(j.fields[Pose], p)
  }

  /** What the decoder returns is what the value holds, member by member, and the arrays have the
      lengths of the contract. */
  lemma DecodesMembers(j: Json)
    requires Decode(j).Ok?
    ensures HoldsFrame(j, Decode(j).value) && Decode(j).value.schemaVersion == 1
    ensures Decode(j).value.pose.Some? ==>
      var p := Decode(j).value.pose.value;
      && |p.globalOrient| == |p.jawPose| == |p.transl| == 3 && |p.betas| == |p.expression| == 10
      && |p.bodyPose| == 21 && |p.leftHandPose| == |p.rightHandPose| == 15
      && (forall i | 0 <= i < 21 :: |p.bodyPose[i]| == 3)
      && (forall i | 0 <= i < 15 :: |p.leftHandPose[i]| == 3 && |p.rightHandPose[i]| == 3)
  {
    hide DecodePayload; hide HoldsPayload;
    DecodeExactly(j);
    if Decode(j).value.pose.Some? { PayloadMembers(j.fields[Pose]); }
  }

  lemma PayloadMembers(j: Json)
    requires DecodePayload(j).Ok?
    ensures HoldsPayload(j, DecodePayload(j).value)
  {
    hide FloatsOf; hide MatrixOf; hide HoldsRow; hide HoldsRows;
    FloatsMembers(Get(j.fields, GlobalOrient), 3);
    FloatsMembers(Get(j.fields, JawPose), 3);
    FloatsMembers(Get(j.fields, Transl), 3);
    FloatsMembers(Get(j.fields, Betas), F.NUM_BETAS);
    FloatsMembers(Get(j.fields, Expression), F.NUM_EXPRESSION);
    MatrixMembers(Get(j.fields, BodyPose), F.NUM_BODY_JOINTS);
    MatrixMembers(Get(j.fields, LeftHandPose), F.NUM_HAND_JOINTS);
    MatrixMembers(Get(j.fields, RightHandPose), F.NUM_HAND_JOINTS);
  }

  lemma FloatsMembers(j: Json, length: nat)
    requires FloatsOf(j, length).Ok?
    ensures j != Null && HoldsRow(j, FloatsOf(j, length).value)
  {}

  lemma MatrixMembers(j: Json, rows: nat)
    requires MatrixOf(j, rows).Ok?
    ensures j != Null && HoldsRows(j, MatrixOf(j, rows).value)
  {
    hide FloatsOf; hide HoldsRow;
    forall i | 0 <= i < rows
      ensures HoldsRow(j.items[i], MatrixOf(j, rows).value[i])
    {
      FloatsMembers(j.items[i], 3);
    }
  }

  /** And the encoder refuses exactly a status that does not fit the presence of a pose; what it
      emits holds the frame, its numbers read as reals. */
  lemma EncodesMembers(f: WireFrame)
    ensures Encode(f).Ok? <==> (f.status == "ok" <==> f.pose.Some?)
    ensures Encode(f).Ok? ==> HoldsFrame(Encode(f).value, Normalized(f))
    ensures Normalized(f).status == f.status && Normalized(f).seqNumber == f.seqNumber
    ensures Normalized(f).schemaVersion == f.schemaVersion && Stands(Normalized(f).capturedAt, f.capturedAt)
    ensures f.pose.Some? <==> Normalized(f).pose.Some?
  {
    hide EncodePayload; hide HoldsPayload; hide NormalizedPayload;
    if f.pose.Some? { EncodesPayload(f.pose.value); }
  }

  predicate StandRow(xs: seq<real>, ns: seq<Number>) {
    |xs| == |ns| && forall i | 0 <= i < |xs| :: Stands(xs[i], ns[i])
  }

  predicate StandRows(xs: seq<seq<real>>, ns: seq<seq<Number>>) {
    |xs| == |ns| && forall i | 0 <= i < |xs| :: StandRow(xs[i], ns[i])
  }

  /** The payload in reals is the payload, array by array. */
  lemma NormalizedMembers(p: WirePayload)
    ensures var n := NormalizedPayload(p);
      && StandRow(n.globalOrient, p.globalOrient) && StandRows(n.bodyPose, p.bodyPose)
      && StandRows(n.leftHandPose, p.leftHandPose) && StandRows(n.rightHandPose, p.rightHandPose)
      && StandRow(n.jawPose, p.jawPose) && StandRow(n.betas, p.betas)
      && StandRow(n.expression, p.expression) && StandRow(n.transl, p.transl)
  {}

  lemma EncodesPayload(p: WirePayload)
    ensures HoldsPayload(EncodePayload(p), NormalizedPayload(p))
  {
    hide Row; hide Rows; hide AsReals; hide AsRows; hide HoldsRow; hide HoldsRows;
    RowHolds(p.globalOrient); RowHolds(p.jawPose); RowHolds(p.betas); RowHolds(p.expression); RowHolds(p.transl);
    RowsHold(p.bodyPose); RowsHold(p.leftHandPose); RowsHold(p.rightHandPose);
  }

  lemma RowHolds(xs: seq<Number>)
    ensures HoldsRow(Row(xs), AsReals(xs))
  {}

  lemma RowsHold(rows: seq<seq<Number>>)
    ensures HoldsRows(Rows(rows), AsRows(rows))
  {
    hide Row; hide AsReals; hide HoldsRow;
    forall i | 0 <= i < |rows| ensures HoldsRow(Row(rows[i]), AsReals(rows[i])) { RowHolds(rows[i]); }
  }

  /* ---- round trips ---- */

  function AsReals(xs: seq<Number>): seq<real> { seq(|xs|, i requires 0 <= i < |xs| => AsReal(xs[i])) }

  function AsRows(rows: seq<seq<Number>>): seq<seq<real>> {
    seq(|rows|, i requires 0 <= i < |rows| => AsReals(rows[i]))
  }

  function NormalizedPayload(p: WirePayload): Payload {
    F.PosePayload(AsReals(p.globalOrient), AsRows(p.bodyPose), AsRows(p.leftHandPose), AsRows(p.rightHandPose),
                  AsReals(p.jawPose), AsReals(p.betas), AsReals(p.expression), AsReals(p.transl))
  }

  /** The frame with every number turned into a real. */
  function Normalized(f: WireFrame): Frame {
    F.PoseFrame(f.schemaVersion, f.seqNumber, AsReal(f.capturedAt), f.status,
                if f.pose.Some? then Some(NormalizedPayload(f.pose.value)) else None)
  }

  lemma RowBack(xs: seq<Number>, length: nat)
    ensures FloatsOf(Row(xs), length) == if |xs| == length then Ok(AsReals(xs)) else Err("must be a list of numbers")
  {
    if |xs| == length { assert Reals(Row(xs).items) == AsReals(xs); }
  }

  lemma RowsBack(rows: seq<seq<Number>>, count: nat)
    ensures MatrixOf(Rows(rows), count).Ok? <==> F.Rows(rows, count)
    ensures F.Rows(rows, count) ==> MatrixOf(Rows(rows), count) == Ok(AsRows(rows))
  {
    hide FloatsOf; hide Row; hide AsReals;
    forall i | 0 <= i < |rows|
      ensures FloatsOf(Rows(rows).items[i], 3).Ok? <==> |rows[i]| == 3
      ensures |rows[i]| == 3 ==> FloatsOf(Rows(rows).items[i], 3) == Ok(AsReals(rows[i]))
    {
      RowBack(rows[i], 3);
    }
    if F.Rows(rows, count) { assert MatrixOf(Rows(rows), count).value == AsRows(rows); }
  }

  lemma PayloadBack(p: WirePayload)
    ensures DecodePayload(EncodePayload(p)).Ok? <==> F.WellShaped(p)
    ensures F.WellShaped(p) ==> DecodePayload(EncodePayload(p)) == Ok(NormalizedPayload(p))
  {
    hide FloatsOf; hide MatrixOf; hide Row; hide Rows; hide AsReals; hide AsRows; hide F.Rows;
    RowBack(p.globalOrient, 3);
    RowBack(p.jawPose, 3);
    RowBack(p.transl, 3);
    RowBack(p.betas, F.NUM_BETAS);
    RowBack(p.expression, F.NUM_EXPRESSION);
    RowsBack(p.bodyPose, F.NUM_BODY_JOINTS);
    RowsBack(p.leftHandPose, F.NUM_HAND_JOINTS);
    RowsBack(p.rightHandPose, F.NUM_HAND_JOINTS);
  }

  /** A frame the encoder accepts is accepted by the decoder exactly when its schema version is
      current, its status is one of the two, and its arrays have the contract's lengths; then
      decoding returns the frame with its numbers turned into reals. */
  lemma RoundTrip(f: WireFrame)
    requires Encode(f).Ok?
    ensures Decode(Encode(f).value).Ok? <==>
      && f.schemaVersion == F.SCHEMA_VERSION
      && (f.status == "ok" || f.status == "no_person")
      && (f.pose.Some? ==> F.WellShaped(f.pose.value))
    ensures Decode(Encode(f).value).Ok? ==> Decode(Encode(f).value) == Ok(Normalized(f))
  {
    hide DecodePayload; hide EncodePayload; hide NormalizedPayload; hide F.WellShaped;
    if f.pose.Some? { PayloadBack(f.pose.value); }
    EncodedPayloadIsObject(f);
  }

  lemma EncodedPayloadIsObject(f: WireFrame)
    ensures f.pose.Some? ==> EncodePayload(f.pose.value) != Null
  {}

  /** The encoder's promise never to emit a line the decoder rejects is not kept: it checks
      neither the schema version nor, without a pose, the status, nor any array length. */
  lemma EncoderEmitsRejectedLines()
    ensures var f: WireFrame := F.PoseFrame(2, 0, Int(0), "no_person", None);
      Encode(f).Ok? && Decode(Encode(f).value).Err?
    ensures var f: WireFrame := F.PoseFrame(1, 0, Int(0), "unknown", None);
      Encode(f).Ok? && Decode(Encode(f).value).Err?
    ensures var p: WirePayload := F.PosePayload([], [], [], [], [], [], [], []);
      var f: WireFrame := F.PoseFrame(1, 0, Int(0), "ok", Some(p)); Encode(f).Ok? && Decode(Encode(f).value).Err?
  {
    RoundTrip(F.PoseFrame(2, 0, Int(0), "no_person", None));
    RoundTrip(F.PoseFrame(1, 0, Int(0), "unknown", None));
    RoundTrip(F.PoseFrame(1, 0, Int(0), "ok", Some(F.PosePayload([], [], [], [], [], [], [], []))));
  }

  /* ---- re-encoding what was decoded ---- */

  function Lift(xs: seq<real>): seq<Number> { seq(|xs|, i requires 0 <= i < |xs| => Float(xs[i])) }

  function LiftRows(rows: seq<seq<real>>): seq<seq<Number>> { seq(|rows|, i requires 0 <= i < |rows| => Lift(rows[i])) }

  /** A decoded frame as the producer of the next hop holds it. */
  function Relayed(f: Frame): WireFrame {
    F.PoseFrame(f.schemaVersion, f.seqNumber, Float(f.capturedAt), f.status,
                if f.pose.None? then None
                else
                  var p := f.pose.value;
                  Some(F.PosePayload(Lift(p.globalOrient), LiftRows(p.bodyPose), LiftRows(p.leftHandPose),
                                     LiftRows(p.rightHandPose), Lift(p.jawPose), Lift(p.betas), Lift(p.expression),
                                     Lift(p.transl))))
  }

  lemma LiftBack(xs: seq<real>)
    ensures AsReals(Lift(xs)) == xs && |Lift(xs)| == |xs|
  {}

  lemma LiftRowsBack(rows: seq<seq<real>>, count: nat)
    ensures AsRows(LiftRows(rows)) == rows && (F.Rows(LiftRows(rows), count) <==> F.Rows(rows, count))
  {
    hide AsReals; hide Lift;
    forall i | 0 <= i < |rows|
      ensures AsReals(LiftRows(rows)[i]) == rows[i] && |LiftRows(rows)[i]| == |rows[i]|
    {
      LiftBack(rows[i]);
    }
  }

  lemma RelayedBack(f: Frame)
    ensures Normalized(Relayed(f)) == f
    ensures f.pose.Some? ==> (F.WellShaped(Relayed(f).pose.value) <==> F.WellShaped(f.pose.value))
  {
    hide AsReals; hide AsRows; hide Lift; hide LiftRows; hide F.Rows;
    if f.pose.Some? {
      var p := f.pose.value;
      LiftBack(p.globalOrient); LiftBack(p.jawPose); LiftBack(p.betas); LiftBack(p.expression); LiftBack(p.transl);
      LiftRowsBack(p.bodyPose, F.NUM_BODY_JOINTS);
      LiftRowsBack(p.leftHandPose, F.NUM_HAND_JOINTS);
      LiftRowsBack(p.rightHandPose, F.NUM_HAND_JOINTS);
    }
  }

  /** Normalising is idempotent: whatever decodes can be encoded again, and comes back from a
      second hop unchanged. */
  lemma SecondHopIsLossless(j: Json)
    requires Decode(j).Ok?
    ensures var f := Decode(j).value; Encode(Relayed(f)).Ok? && Decode(Encode(Relayed(f)).value) == Ok(f)
  {
    hide Decode; hide F.WellShaped; hide Normalized;
    DecodeExactly(j);
    var f := Decode(j).value;
    RelayedBack(f);
    RoundTrip(Relayed(f));
  }
}
