/**
 * The SRQ-20 questionnaire record and its projection, field by field and in
 * the fixed FEATURES order, into the numeric vector the classifier consumes.
 */
module Features {
  import opened Wrappers

  /** One request body: twenty integer answers, one per SRQ-20 item. */
  datatype SRQ20Input = SRQ20Input(
    headache: int, appetite: int, sleep: int, fear: int, shaking: int,
    nervous: int, digestion: int, troubled: int, unhappy: int, cry: int,
    enjoyment: int, decisions: int, work: int, play: int, interest: int,
    worthless: int, suicide: int, tiredness: int, uncomfortable: int, easily_tired: int)

  /** The order in which the classifier was trained on the items. */
  const FEATURES: seq<string> := [
    "headache", "appetite", "sleep", "fear", "shaking", "nervous", "digestion",
    "troubled", "unhappy", "cry", "enjoyment", "decisions", "work", "play",
    "interest", "worthless", "suicide", "tiredness", "uncomfortable", "easily_tired"
  ]

  /**
   * Field lookup by name; `None` for a name that is not one of the twenty
   * fields (the record's other attributes, such as its methods, are not modelled).
   */
  function GetAttr(data: SRQ20Input, name: string): (r: Option<int>)
    ensures r.Some? <==> name in FEATURES
  {
    match name
    case "headache" => Some(data.headache)
    case "appetite" => Some(data.appetite)
    case "sleep" => Some(data.sleep)
    case "fear" => Some(data.fear)
    case "shaking" => Some(data.shaking)
    case "nervous" => Some(data.nervous)
    case "digestion" => Some(data.digestion)
    case "troubled" => Some(data.troubled)
    case "unhappy" => Some(data.unhappy)
    case "cry" => Some(data.cry)
    case "enjoyment" => Some(data.enjoyment)
    case "decisions" => Some(data.decisions)
    case "work" => Some(data.work)
    case "play" => Some(data.play)
    case "interest" => Some(data.interest)
    case "worthless" => Some(data.worthless)
    case "suicide" => Some(data.suicide)
    case "tiredness" => Some(data.tiredness)
    case "uncomfortable" => Some(data.uncomfortable)
    case "easily_tired" => Some(data.easily_tired)
    case _ => None
  }

  /**
   * The list comprehension `[getattr(data, f) for f in names]`: the vector of
   * the named fields in the order of `names`, or `None` when a name is not
   * a field.
   */
  function Project(data: SRQ20Input, names: seq<string>): (r: Option<seq<int>>)
    ensures r.Some? <==> forall i :: 0 <= i < |names| ==> GetAttr(data, names[i]).Some?
    ensures r.Some? ==> |r.value| == |names|
    ensures r.Some? ==> forall i :: 0 <= i < |names| ==> Some(r.value[i]) == GetAttr(data, names[i])
  {
    if names == [] then Some([])
    else
      match GetAttr(data, names[0])
      case None => None
      case Some(x) =>
        match Project(data, names[1..])
        case None => None
        case Some(rest) => Some([x] + rest)
  }

  /** The statically ordered struct-to-vector mapping: one accessor per position. */
  function AsVector(data: SRQ20Input): seq<int>
  {
    [data.headache, data.appetite, data.sleep, data.fear, data.shaking,
     data.nervous, data.digestion, data.troubled, data.unhappy, data.cry,
     data.enjoyment, data.decisions, data.work, data.play, data.interest,
     data.worthless, data.suicide, data.tiredness, data.uncomfortable, data.easily_tired]
  }

  /** Reads a twenty-entry vector back into a questionnaire record. */
  function FromVector(v: seq<int>): (data: SRQ20Input)
    requires |v| == 20
  {
    SRQ20Input(v[0], v[1], v[2], v[3], v[4], v[5], v[6], v[7], v[8], v[9],
               v[10], v[11], v[12], v[13], v[14], v[15], v[16], v[17], v[18], v[19])
  }

  /** Every feature name is a field of the record, and no name is listed twice. */
  lemma FeaturesAreFields(data: SRQ20Input)
    ensures |FEATURES| == 20
    ensures forall i :: 0 <= i < |FEATURES| ==> GetAttr(data, FEATURES[i]).Some?
    ensures forall i, j :: 0 <= i < j < |FEATURES| ==> FEATURES[i] != FEATURES[j]
  {
  }

  /** The field named FEATURES[i] is entry i of the fixed accessor list. */
  lemma FieldAt(data: SRQ20Input, i: int)
    requires 0 <= i < 20
    ensures GetAttr(data, FEATURES[i]) == Some(AsVector(data)[i])
  {
  }

  /**
   * Projecting by name in FEATURES order never fails, yields twenty entries,
   * and entry i is the field named FEATURES[i]; it is the fixed accessor list.
   */
  lemma ProjectFeatures(data: SRQ20Input)
    ensures Project(data, FEATURES).Some?
    ensures |Project(data, FEATURES).value| == 20
    ensures forall i :: 0 <= i < 20 ==> Some(Project(data, FEATURES).value[i]) == GetAttr(data, FEATURES[i])
    ensures Project(data, FEATURES) == Some(AsVector(data))
  {
    FeaturesAreFields(data);
    var v := Project(data, FEATURES).value;
    forall i | 0 <= i < 20 ensures v[i] == AsVector(data)[i] {
      assert Some(v[i]) == GetAttr(data, FEATURES[i]);
      FieldAt(data, i);
    }
    assert v == AsVector(data);
  }

  /** The projection loses nothing: the record can be read back from its vector. */
  lemma ProjectionRoundTrip(data: SRQ20Input)
    ensures |AsVector(data)| == 20 && FromVector(AsVector(data)) == data
  {
  }

  /** Distinct records project to distinct vectors. */
  lemma ProjectionInjective(a: SRQ20Input, b: SRQ20Input)
    requires Project(a, FEATURES) == Project(b, FEATURES)
    ensures a == b
  {
    ProjectFeatures(a);
    ProjectFeatures(b);
    ProjectionRoundTrip(a);
    ProjectionRoundTrip(b);
  }
}
