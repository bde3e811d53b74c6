/**
 * What the JSON schema of `src/resp.rs` promises: every response is an
 * object tagged with its variant name and carrying its fields under their
 * wire names; decoding inverts encoding; an unknown tag is rejected; field
 * payloads are read leniently.
 */
module ResponseProperties {
  import opened Wrappers
  import opened Base
  import opened Json
  import opened Response

  /** No name occurs twice. */
  predicate DistinctNames(names: seq<string>) {
    forall i, k :: 0 <= i < |names| && 0 <= k < |names| && i != k ==> names[i] != names[k]
  }

  // ---------------------------------------------------------------------
  // Shape of the encoding
  // ---------------------------------------------------------------------

  /** No two variants share a tag, so a tag determines its variant. */
  lemma RespTagsDistinct()
    ensures DistinctNames(RespTags)
  {
  }

  lemma DisplayInfoTagsDistinct()
    ensures DistinctNames(DisplayInfoTags)
  {
    var t := DisplayInfoTags;
    assert DistinctNames(t[8..]);
    DistinctPrefix(t[..8], t[8..]);
    assert t[..8] + t[8..] == t;
  }

  /** Two lists of distinct names that share none are distinct together. */
  lemma DistinctPrefix(xs: seq<string>, ys: seq<string>)
    requires DistinctNames(xs) && DistinctNames(ys)
    requires forall i, k :: 0 <= i < |xs| && 0 <= k < |ys| ==> xs[i] != ys[k]
    ensures DistinctNames(xs + ys)
  {
    var zs := xs + ys;
    forall i, k | 0 <= i < |zs| && 0 <= k < |zs| && i != k
      ensures zs[i] != zs[k]
    {
      if i < |xs| && k >= |xs| {
        assert zs[k] == ys[k - |xs|];
      } else if k < |xs| && i >= |xs| {
        assert zs[i] == ys[i - |xs|];
      }
    }
  }

  /** The tag of variant number `i` is found at position `i`. */
  lemma RespTagAt(i: nat)
    requires i < |RespTags|
    ensures IndexOf(RespTags, RespTags[i]) == Some(i)
  {
    RespTagsDistinct();
  }

  lemma DisplayInfoTagAt(i: nat)
    requires i < |DisplayInfoTags|
    ensures IndexOf(DisplayInfoTags, DisplayInfoTags[i]) == Some(i)
  {
    DisplayInfoTagsDistinct();
  }

  /**
   * Decoding an object tagged with the name of variant `i` reads exactly
   * that variant's fields and builds that variant.
   */
  lemma RespDispatch(fields: seq<(string, Json)>, i: nat)
    requires i < |RespTags| && Lookup(fields, "kind") == Ok(Some(Str(RespTags[i])))
    ensures DecodeResp(Obj(fields)) == match FieldValues(fields, RespFields[i])
      case Ok(vs) => BuildResp(i, vs)
      case Err(e) => Err(e)
  {
    RespTagAt(i);
  }

  lemma DisplayInfoDispatch(fields: seq<(string, Json)>, i: nat)
    requires i < |DisplayInfoTags| && Lookup(fields, "kind") == Ok(Some(Str(DisplayInfoTags[i])))
    ensures DecodeDisplayInfo(Obj(fields)) == match FieldValues(fields, DisplayInfoFields[i])
      case Ok(vs) => BuildDisplayInfo(i, vs)
      case Err(e) => Err(e)
  {
    DisplayInfoTagAt(i);
  }

  /** An encoded response lists `"kind"` and then exactly its variant's wire fields, in order. */
  lemma EncodeRespKeys(r: Resp)
    ensures Keys(EncodeResp(r).fields) == ["kind"] + RespFields[RespIndex(r)]
  {
  }

  lemma EncodeDisplayInfoKeys(d: DisplayInfo)
    ensures Keys(EncodeDisplayInfo(d).fields) == ["kind"] + DisplayInfoFields[DisplayInfoIndex(d)]
  {
  }

  /** No variant repeats a wire name, and none uses the tag's name for a field. */
  lemma RespFieldsDistinct(i: nat)
    requires i < |RespFields|
    ensures DistinctNames(["kind"] + RespFields[i])
  {
  }

  lemma DisplayInfoFieldsDistinct(i: nat)
    requires i < |DisplayInfoFields|
    ensures DistinctNames(["kind"] + DisplayInfoFields[i])
  {
  }

  /** The renamed fields of `GiveAction` and `MakeCase` appear under their wire names. */
  lemma GoalFieldsRenamed(g: bool, ip: InteractionPoint, v: MakeCase, cs: seq<string>)
    ensures Keys(EncodeResp(GiveAction(g, ip)).fields) == ["kind", "giveResult", "interactionPoint"]
    ensures Keys(EncodeResp(Resp.MakeCase(v, ip, cs)).fields) == ["kind", "variant", "interactionPoint", "clauses"]
  {
    RespWireNames(GiveAction(g, ip), ["giveResult", "interactionPoint"]);
    RespWireNames(Resp.MakeCase(v, ip, cs), ["variant", "interactionPoint", "clauses"]);
  }

  /** `interactionPoints` and `debugLevel` are the wire names of the id list and the level. */
  lemma ListAndLevelRenamed(ips: seq<InteractionPoint>, l: Int32, m: string)
    ensures Keys(EncodeResp(InteractionPoints(ips)).fields) == ["kind", "interactionPoints"]
    ensures Keys(EncodeResp(RunningInfo(l, m)).fields) == ["kind", "debugLevel", "message"]
  {
    RespWireNames(InteractionPoints(ips), ["interactionPoints"]);
    RespWireNames(RunningInfo(l, m), ["debugLevel", "message"]);
  }

  /** Inside a display info the goal id is written `interactionPoint` too. */
  lemma DisplayInfoGoalRenamed(ip: InteractionPoint)
    ensures Keys(EncodeDisplayInfo(GoalSpecific(ip)).fields) == ["kind", "interactionPoint"]
    ensures Keys(EncodeDisplayInfo(Context(ip)).fields) == ["kind", "interactionPoint"]
  {
    DisplayInfoWireNames(GoalSpecific(ip), ["interactionPoint"]);
    DisplayInfoWireNames(Context(ip), ["interactionPoint"]);
  }

  /** A response whose variant reads `names` is written with `"kind"` and then exactly `names`. */
  lemma RespWireNames(r: Resp, names: seq<string>)
    requires RespFields[RespIndex(r)] == names
    ensures Keys(EncodeResp(r).fields) == ["kind"] + names
  {
    EncodeRespKeys(r);
  }

  lemma DisplayInfoWireNames(d: DisplayInfo, names: seq<string>)
    requires DisplayInfoFields[DisplayInfoIndex(d)] == names
    ensures Keys(EncodeDisplayInfo(d).fields) == ["kind"] + names
  {
    EncodeDisplayInfoKeys(d);
  }

  /** `Status` is written with camel-case keys; the default status has both flags off. */
  lemma StatusWire(st: Status)
    ensures EncodeStatus(st) == Obj([("showImplicitArguments", Bool(st.showImplicitArguments)), ("checked", Bool(st.checked))])
    ensures EncodeStatus(DefaultStatus) == Obj([("showImplicitArguments", Bool(false)), ("checked", Bool(false))])
  {
  }

  /** Unit variants are written as an object holding only the tag. */
  lemma UnitVariantsCarryOnlyKind()
    ensures EncodeResp(ClearRunningInfo) == Obj([("kind", Str("ClearRunningInfo"))])
    ensures EncodeResp(DoneAborting) == Obj([("kind", Str("DoneAborting"))])
  {
  }

  /** A display info is nested, with its own tag, under `"info"`; `MakeCase` is a bare string. */
  lemma NestedShapes(d: DisplayInfo, v: MakeCase, ip: InteractionPoint, cs: seq<string>)
    ensures EncodeResp(Resp.DisplayInfo(d)) == Obj([("kind", Str("DisplayInfo")), ("info", EncodeDisplayInfo(d))])
    ensures EncodeDisplayInfo(d).fields[0] == ("kind", Str(DisplayInfoTag(d)))
    ensures EncodeResp(Resp.MakeCase(v, ip, cs)).fields[1] == ("variant", Str(if v == Function then "Function" else "ExtendedLambda"))
  {
  }

  /** The three values serialised by the crate's tests, as the objects they become. */
  lemma TestedShapes()
    ensures EncodeStatus(DefaultStatus) == Obj([("showImplicitArguments", Bool(false)), ("checked", Bool(false))])
    ensures EncodeResp(Resp.MakeCase(Function, 233, ["f a = a"]))
         == Obj([("kind", Str("MakeCase")), ("variant", Str("Function")), ("interactionPoint", Int(233)),
                 ("clauses", Arr([Str("f a = a")]))])
    ensures EncodeResp(Resp.Status(DefaultStatus))
         == Obj([("kind", Str("Status")), ("status", Obj([("showImplicitArguments", Bool(false)), ("checked", Bool(false))]))])
  {
    assert EncodeStrings(["f a = a"]) == Arr([Str("f a = a")]);
    StatusWire(DefaultStatus);
  }

  // ---------------------------------------------------------------------
  // Round trips
  // ---------------------------------------------------------------------

  /** Every field of an encoded response is found again under its wire name. */
  lemma EncodedRespLookups(r: Resp)
    ensures Tag(EncodeResp(r).fields) == Ok(RespTag(r))
    ensures FieldValues(EncodeResp(r).fields, RespFields[RespIndex(r)]) == Ok(RespValues(r))
  {
    var tag := RespTag(r);
    var fs := EncodeResp(r).fields;
    EncodeRespKeys(r);
    RespFieldsDistinct(RespIndex(r));
    assert DistinctKeys(fs) by {
      forall i, k | 0 <= i < |fs| && 0 <= k < |fs| && i != k ensures fs[i].0 != fs[k].0 {
        assert fs[i].0 == Keys(fs)[i] && fs[k].0 == Keys(fs)[k];
      }
    }
    LookupEach(fs);
    assert Lookup(fs, "kind") == Ok(Some(Str(tag))) by {
      assert fs[0] == ("kind", Str(tag));
    }
    var names := RespFields[RespIndex(r)];
    forall i | 0 <= i < |names|
      ensures Lookup(fs, names[i]) == Ok(Some(RespValues(r)[i]))
    {
      assert fs[i + 1] == (names[i], RespValues(r)[i]);
    }
    FieldValuesFromLookups(fs, names, RespValues(r));
  }

  lemma EncodedDisplayInfoLookups(d: DisplayInfo)
    ensures Tag(EncodeDisplayInfo(d).fields) == Ok(DisplayInfoTag(d))
    ensures FieldValues(EncodeDisplayInfo(d).fields, DisplayInfoFields[DisplayInfoIndex(d)]) == Ok(DisplayInfoValues(d))
  {
    var tag := DisplayInfoTag(d);
    var fs := EncodeDisplayInfo(d).fields;
    EncodeDisplayInfoKeys(d);
    DisplayInfoFieldsDistinct(DisplayInfoIndex(d));
    assert DistinctKeys(fs) by {
      forall i, k | 0 <= i < |fs| && 0 <= k < |fs| && i != k ensures fs[i].0 != fs[k].0 {
        assert fs[i].0 == Keys(fs)[i] && fs[k].0 == Keys(fs)[k];
      }
    }
    LookupEach(fs);
    assert Lookup(fs, "kind") == Ok(Some(Str(tag))) by {
      assert fs[0] == ("kind", Str(tag));
    }
    var names := DisplayInfoFields[DisplayInfoIndex(d)];
    forall i | 0 <= i < |names|
      ensures Lookup(fs, names[i]) == Ok(Some(DisplayInfoValues(d)[i]))
    {
      assert fs[i + 1] == (names[i], DisplayInfoValues(d)[i]);
    }
    FieldValuesFromLookups(fs, names, DisplayInfoValues(d));
  }

  lemma StatusRoundTrip(st: Status)
    ensures DecodeStatus(EncodeStatus(st)) == Ok(st)
  {
    var fs := EncodeStatus(st).fields;
    LookupUnique(fs, 0);
    LookupUnique(fs, 1);
    FieldValuesFromLookups(fs, StatusFields, [Bool(st.showImplicitArguments), Bool(st.checked)]);
  }

  lemma MakeCaseRoundTrip(m: MakeCase)
    ensures DecodeMakeCase(EncodeMakeCase(m)) == Ok(m)
  {
  }

  lemma U32sRoundTrip(ns: seq<InteractionPoint>)
    ensures AsU32s(EncodeInts(ns)) == Ok(ns)
  {
    var r := AsU32s(EncodeInts(ns));
    assert r.Ok?;
    assert r.value == ns;
  }

  lemma StringsRoundTrip(ss: seq<string>)
    ensures AsStrings(EncodeStrings(ss)) == Ok(ss)
  {
    var r := AsStrings(EncodeStrings(ss));
    assert r.Ok?;
    assert r.value == ss;
  }

  /** Building a display info from its own field values gives it back. */
  lemma BuildDisplayInfoInverts(d: DisplayInfo)
    ensures BuildDisplayInfo(DisplayInfoIndex(d), DisplayInfoValues(d)) == Ok(d)
  {
  }

  lemma DisplayInfoRoundTrip(d: DisplayInfo)
    ensures DecodeDisplayInfo(EncodeDisplayInfo(d)) == Ok(d)
  {
    EncodedDisplayInfoLookups(d);
    DisplayInfoDispatch(EncodeDisplayInfo(d).fields, DisplayInfoIndex(d));
    BuildDisplayInfoInverts(d);
  }

  /** The variants whose values come from the nested encoders. */
  lemma BuildRespStatusOrList(r: Resp)
    requires r.Status? || r.InteractionPoints?
    ensures BuildResp(RespIndex(r), RespValues(r)) == Ok(r)
  {
    match r
    case Status(st) => StatusRoundTrip(st);
    case InteractionPoints(ips) => U32sRoundTrip(ips);
  }

  lemma BuildRespMakeCase(v: MakeCase, ip: InteractionPoint, cs: seq<string>)
    ensures BuildResp(5, RespValues(Resp.MakeCase(v, ip, cs))) == Ok(Resp.MakeCase(v, ip, cs))
  {
    MakeCaseRoundTrip(v);
    StringsRoundTrip(cs);
  }

  /** Variant 7 is built from whatever its one field decodes to as a display info. */
  lemma BuildRespInfo(j: Json)
    ensures BuildResp(7, [j]).Ok? <==> DecodeDisplayInfo(j).Ok?
    ensures BuildResp(7, [j]).Ok? ==> BuildResp(7, [j]).value == Resp.DisplayInfo(DecodeDisplayInfo(j).value)
  {
    assert BuildResp(7, [j]) == DecodeInfoField(j);
  }

  lemma BuildRespDisplayInfo(d: DisplayInfo)
    ensures BuildResp(7, RespValues(Resp.DisplayInfo(d))) == Ok(Resp.DisplayInfo(d))
  {
    assert RespValues(Resp.DisplayInfo(d)) == [EncodeDisplayInfo(d)];
    DisplayInfoRoundTrip(d);
    BuildRespInfo(EncodeDisplayInfo(d));
  }

  lemma BuildRespFlat(r: Resp)
    requires !(r.Status? || r.InteractionPoints? || r.MakeCase? || r.DisplayInfo?)
    ensures BuildResp(RespIndex(r), RespValues(r)) == Ok(r)
  {
  }

  /** Decoding an encoded response gives the response back, for every variant. */
  lemma RespRoundTrip(r: Resp)
    ensures DecodeResp(EncodeResp(r)) == Ok(r)
  {
    EncodedRespLookups(r);
    RespDispatch(EncodeResp(r).fields, RespIndex(r));
    if r.Status? || r.InteractionPoints? {
      BuildRespStatusOrList(r);
    } else if r.MakeCase? {
      BuildRespMakeCase(r.variant, r.interactionPoint, r.clauses);
    } else if r.DisplayInfo? {
      BuildRespDisplayInfo(r.info);
    } else {
      BuildRespFlat(r);
    }
  }

  // ---------------------------------------------------------------------
  // Strict tag dispatch
  // ---------------------------------------------------------------------

  /** A decoded response is the variant its tag names: a tag never maps to another variant. */
  lemma DecodedRespMatchesTag(j: Json)
    requires DecodeResp(j).Ok?
    ensures j.Obj? && Lookup(j.fields, "kind") == Ok(Some(Str(RespTag(DecodeResp(j).value))))
  {
  }

  lemma DecodedDisplayInfoMatchesTag(j: Json)
    requires DecodeDisplayInfo(j).Ok?
    ensures j.Obj? && Lookup(j.fields, "kind") == Ok(Some(Str(DisplayInfoTag(DecodeDisplayInfo(j).value))))
  {
  }

  /** A tag that names no response variant is rejected with that tag, whatever else the object holds. */
  lemma UnknownRespTagRejected(fields: seq<(string, Json)>, t: string)
    requires Lookup(fields, "kind") == Ok(Some(Str(t)))
    requires t !in RespTags
    ensures DecodeResp(Obj(fields)) == Err(UnknownVariant(t))
  {
  }

  lemma UnknownDisplayInfoTagRejected(fields: seq<(string, Json)>, t: string)
    requires Lookup(fields, "kind") == Ok(Some(Str(t)))
    requires t !in DisplayInfoTags
    ensures DecodeDisplayInfo(Obj(fields)) == Err(UnknownVariant(t))
  {
  }

  /** A goal id outside the unsigned 32-bit range makes a `GiveAction` fail to decode. */
  lemma GoalIdOutOfRangeRejected(fields: seq<(string, Json)>, n: int)
    requires Lookup(fields, "kind") == Ok(Some(Str("GiveAction")))
    requires Lookup(fields, "interactionPoint") == Ok(Some(Int(n)))
    requires n < 0 || n >= U32Limit
    ensures DecodeResp(Obj(fields)).Err?
  {
    assert RespTags[4] == "GiveAction" && RespFields[4] == ["giveResult", "interactionPoint"];
    RespDispatch(fields, 4);
    var vs := FieldValues(fields, RespFields[4]);
    if vs.Ok? {
      assert vs.value[1] == Int(n);
      GiveActionNeedsU32(vs.value);
    }
  }

  /** The builder for `GiveAction` rejects a goal id that is not an unsigned 32-bit integer. */
  lemma GiveActionNeedsU32(vs: seq<Json>)
    requires |vs| == 2 && !(vs[1].Int? && 0 <= vs[1].n < U32Limit)
    ensures BuildResp(4, vs).Err?
  {
  }

  /** A missing tag, a repeated tag, or a tag that is not a string: nothing decodes. */
  lemma BadTagRejected(fields: seq<(string, Json)>)
    requires Count(fields, "kind") != 1 || !First(fields, "kind").Str?
    ensures DecodeResp(Obj(fields)).Err? && DecodeDisplayInfo(Obj(fields)).Err?
    ensures Count(fields, "kind") == 0 ==> DecodeResp(Obj(fields)) == Err(MissingField("kind"))
    ensures Count(fields, "kind") >= 2 ==> DecodeResp(Obj(fields)) == Err(DuplicateField("kind"))
  {
  }

  // ---------------------------------------------------------------------
  // Lenient payloads
  // ---------------------------------------------------------------------

  lemma BuildFieldlessResp(r: Resp)
    requires RespFields[RespIndex(r)] == []
    ensures BuildResp(RespIndex(r), []) == Ok(r)
  {
    match r
    case SolveAll =>
    case ClearRunningInfo =>
    case ClearHighlighting =>
    case DoneAborting =>
  }

  /** A response variant without fields (the unit variants and `SolveAll`) decodes from its tag alone, whatever else the object holds. */
  lemma FieldlessRespDecodes(fields: seq<(string, Json)>, r: Resp)
    requires RespFields[RespIndex(r)] == []
    requires Lookup(fields, "kind") == Ok(Some(Str(RespTag(r))))
    ensures DecodeResp(Obj(fields)) == Ok(r)
  {
    RespDispatch(fields, RespIndex(r));
    assert FieldValues(fields, RespFields[RespIndex(r)]) == Ok([]);
    BuildFieldlessResp(r);
  }

  /** The same for the display-info variants whose payload is still a `TODO` in the schema. */
  lemma FieldlessDisplayInfoDecodes(fields: seq<(string, Json)>, d: DisplayInfo)
    requires DisplayInfoFields[DisplayInfoIndex(d)] == []
    requires Lookup(fields, "kind") == Ok(Some(Str(DisplayInfoTag(d))))
    ensures DecodeDisplayInfo(Obj(fields)) == Ok(d)
  {
    DisplayInfoDispatch(fields, DisplayInfoIndex(d));
    assert FieldValues(fields, []) == Ok([]);
    BuildDisplayInfoInverts(d);
  }

  /** A `DisplayInfo` response decodes to whatever its `"info"` entry decodes to as a display info. */
  lemma NestedDisplayInfoDecodes(fields: seq<(string, Json)>, info: Json)
    requires Lookup(fields, "kind") == Ok(Some(Str("DisplayInfo")))
    requires Lookup(fields, "info") == Ok(Some(info))
    ensures DecodeResp(Obj(fields)).Ok? <==> DecodeDisplayInfo(info).Ok?
    ensures DecodeResp(Obj(fields)).Ok? ==> DecodeResp(Obj(fields)).value == Resp.DisplayInfo(DecodeDisplayInfo(info).value)
  {
    assert RespTags[7] == "DisplayInfo" && RespFields[7] == ["info"];
    FieldValuesFromLookups(fields, ["info"], [info]);
    RespDispatch(fields, 7);
    assert DecodeResp(Obj(fields)) == BuildResp(7, [info]);
    BuildRespInfo(info);
  }

  /** `{"kind":"Constraints"}` is a display info, also when nested in a response. */
  lemma ConstraintsDecodes(inner: seq<(string, Json)>)
    requires inner == [("kind", Str("Constraints"))]
    ensures DecodeDisplayInfo(Obj(inner)) == Ok(Constraints)
  {
    LookupUnique(inner, 0);
    FieldlessDisplayInfoDecodes(inner, Constraints);
  }

  /**
   * `AllGoalsWarnings`' unit `goals` field is read from an empty object as
   * well as from `null`.
   */
  lemma EmptyGoalsDecodes(fields: seq<(string, Json)>, w: string, e: string)
    requires fields == [("kind", Str("AllGoalsWarnings")), ("goals", Obj([])), ("warnings", Str(w)), ("errors", Str(e))]
    ensures DecodeDisplayInfo(Obj(fields)) == Ok(AllGoalsWarnings(w, e))
  {
    var vs := [Obj([]), Str(w), Str(e)];
    EmptyGoalsFields(fields, w, e);
    DisplayInfoDispatch(fields, 2);
    assert BuildDisplayInfo(2, vs) == Ok(AllGoalsWarnings(w, e));
  }

  lemma EmptyGoalsFields(fields: seq<(string, Json)>, w: string, e: string)
    requires fields == [("kind", Str("AllGoalsWarnings")), ("goals", Obj([])), ("warnings", Str(w)), ("errors", Str(e))]
    ensures Lookup(fields, "kind") == Ok(Some(Str(DisplayInfoTags[2])))
    ensures FieldValues(fields, DisplayInfoFields[2]) == Ok([Obj([]), Str(w), Str(e)])
  {
    LookupUnique(fields, 0);
    LookupUnique(fields, 1);
    LookupUnique(fields, 2);
    LookupUnique(fields, 3);
    FieldValuesFromLookups(fields, DisplayInfoFields[2], [Obj([]), Str(w), Str(e)]);
  }

  lemma NestedConstraintsDecodes(inner: seq<(string, Json)>, outer: seq<(string, Json)>)
    requires inner == [("kind", Str("Constraints"))]
    requires outer == [("kind", Str("DisplayInfo")), ("info", Obj(inner))]
    ensures DecodeResp(Obj(outer)) == Ok(Resp.DisplayInfo(Constraints))
  {
    ConstraintsDecodes(inner);
    LookupUnique(outer, 0);
    LookupUnique(outer, 1);
    NestedDisplayInfoDecodes(outer, Obj(inner));
  }

  /** An entry under a key the tagged variant does not read leaves the decoded response unchanged. */
  lemma UnknownRespFieldIgnored(before: seq<(string, Json)>, after: seq<(string, Json)>, k: string, v: Json)
    requires k != "kind"
    requires Tag(before + after).Ok? && IndexOf(RespTags, Tag(before + after).value).Some?
         ==> k !in RespFields[IndexOf(RespTags, Tag(before + after).value).value]
    ensures DecodeResp(Obj(before + [(k, v)] + after)) == DecodeResp(Obj(before + after))
  {
    var longer := before + [(k, v)] + after;
    var shorter := before + after;
    LookupIgnoresOtherKey(before, after, k, v, "kind");
    var tag := Tag(shorter);
    if tag.Ok? && IndexOf(RespTags, tag.value).Some? {
      var n := IndexOf(RespTags, tag.value).value;
      var names := RespFields[n];
      forall i | 0 <= i < |names| ensures Lookup(longer, names[i]) == Lookup(shorter, names[i]) {
        LookupIgnoresOtherKey(before, after, k, v, names[i]);
      }
      FieldValuesDependOnNamesOnly(longer, shorter, names);
      RespDispatch(longer, n);
      RespDispatch(shorter, n);
    }
  }

  lemma UnknownDisplayInfoFieldIgnored(before: seq<(string, Json)>, after: seq<(string, Json)>, k: string, v: Json)
    requires k != "kind"
    requires Tag(before + after).Ok? && IndexOf(DisplayInfoTags, Tag(before + after).value).Some?
         ==> k !in DisplayInfoFields[IndexOf(DisplayInfoTags, Tag(before + after).value).value]
    ensures DecodeDisplayInfo(Obj(before + [(k, v)] + after)) == DecodeDisplayInfo(Obj(before + after))
  {
    var longer := before + [(k, v)] + after;
    var shorter := before + after;
    LookupIgnoresOtherKey(before, after, k, v, "kind");
    var tag := Tag(shorter);
    if tag.Ok? && IndexOf(DisplayInfoTags, tag.value).Some? {
      var n := IndexOf(DisplayInfoTags, tag.value).value;
      var names := DisplayInfoFields[n];
      forall i | 0 <= i < |names| ensures Lookup(longer, names[i]) == Lookup(shorter, names[i]) {
        LookupIgnoresOtherKey(before, after, k, v, names[i]);
      }
      FieldValuesDependOnNamesOnly(longer, shorter, names);
      DisplayInfoDispatch(longer, n);
      DisplayInfoDispatch(shorter, n);
    }
  }
}
