/**
 The serving path of `GET /recommend/{user_id}`: the experiment token from the
 flag service selects one of five loaded recommender models (model_a is the
 baseline and the fallback), the model's ranked items are converted to
 strings, and a provenance record of the decision is assembled.

 The flag service, the models' internals, the clock and the provenance sink
 are outside the model: the flag evaluation, the model handles and the
 timestamp are parameters.
 */
module Gateway {
  import opened IntString

  datatype Option<T> = None | Some(value: T)

  /** The five model handles the server loads at start-up. */
  datatype Variant = ModelA | ModelB | ModelC | ModelD | ModelE

  /** The flag key the server evaluates for every request. */
  const ExperimentKey: string := "ab-testing"

  /** The value the flag evaluation falls back to when it has no answer. */
  const FlagDefault: string := "model_a"

  /** The tokens that select a model other than the baseline. */
  const OverrideTokens: set<string> := {"model_b", "model_c", "model_d", "model_e"}

  /** The flag token that names each model. */
  function Token(v: Variant): (t: string)
    ensures v == ModelA <==> t !in OverrideTokens
  {
    match v
    case ModelA => "model_a"
    case ModelB => "model_b"
    case ModelC => "model_c"
    case ModelD => "model_d"
    case ModelE => "model_e"
  }

  /**
   The token the handler sees: the flag service's answer, or the default
   it substitutes when it has none (unknown flag, client offline).
   */
  function Assignment(evaluation: Option<string>): (token: string)
    ensures evaluation.Some? ==> token == evaluation.value
    ensures evaluation.None? ==> token == FlagDefault && token !in OverrideTokens
  {
    match evaluation
    case Some(t) => t
    case None => FlagDefault
  }

  /**
   Start from model_a and let the four override tokens replace it: every
   other token, known or not, is served by the baseline.
   */
  function Route(token: string): (v: Variant)
    ensures v == ModelA <==> token !in OverrideTokens
    ensures v != ModelA ==> Token(v) == token
  {
    match token
    case "model_b" => ModelB
    case "model_c" => ModelC
    case "model_d" => ModelD
    case "model_e" => ModelE
    case _ => ModelA
  }

  /** Each model's own token routes back to it, "model_a" included. */
  lemma RouteToken(v: Variant)
    ensures Route(Token(v)) == v
  {
  }

  /** Distinct override tokens select distinct models. */
  lemma RouteSeparates(t1: string, t2: string)
    requires t1 in OverrideTokens && t2 in OverrideTokens && t1 != t2
    ensures Route(t1) != Route(t2) && Route(t1) != ModelA && Route(t2) != ModelA
  {
  }

  /** Without an answer from the flag service the baseline serves. */
  lemma DefaultIsBaseline()
    ensures Route(Assignment(None)) == ModelA
  {
  }

  /**
   A loaded recommender: the model file and dataset it was built from, and
   its `recommend`, of whose result only the ranked item ids are used.
   */
  datatype Model = Model(savedModelPath: string, datasetPath: string, recommend: int -> seq<int>)

  /** The five module-level models. */
  datatype Registry = Registry(modelA: Model, modelB: Model, modelC: Model, modelD: Model, modelE: Model)

  function Resolve(reg: Registry, v: Variant): Model
  {
    match v
    case ModelA => reg.modelA
    case ModelB => reg.modelB
    case ModelC => reg.modelC
    case ModelD => reg.modelD
    case ModelE => reg.modelE
  }

  /**
   The handle `selected_model` ends up as: `model_a` unless the token is one
   of the four override tokens, in which case the handle that token names.
   */
  lemma SelectedModel(reg: Registry, token: string)
    ensures var m := Resolve(reg, Route(token));
      && (token !in OverrideTokens ==> m == reg.modelA)
      && (token == "model_b" ==> m == reg.modelB)
      && (token == "model_c" ==> m == reg.modelC)
      && (token == "model_d" ==> m == reg.modelD)
      && (token == "model_e" ==> m == reg.modelE)
  {
  }

  /** `[str(rec) for rec in recommendations]` */
  function ToStrings(items: seq<int>): (r: seq<string>)
    ensures |r| == |items|
    ensures forall i | 0 <= i < |items| :: r[i] == Str(items[i])
  {
    seq(|items|, i requires 0 <= i < |items| => Str(items[i]))
  }

  /** Reads a converted list back into item ids. */
  function FromStrings(r: seq<string>): (items: seq<int>)
    requires forall i | 0 <= i < |r| :: IsNumeral(r[i])
    ensures |items| == |r|
  {
    seq(|r|, i requires 0 <= i < |r| => Parse(r[i]))
  }

  /**
   The conversion neither reorders, drops nor duplicates: the items can be
   read back from it exactly.
   */
  lemma ToStringsRoundTrip(items: seq<int>)
    ensures forall i | 0 <= i < |items| :: IsNumeral(ToStrings(items)[i])
    ensures FromStrings(ToStrings(items)) == items
  {
    var r := ToStrings(items);
    forall i | 0 <= i < |items|
      ensures IsNumeral(r[i]) && Parse(r[i]) == items[i]
    {
      StrRoundTrip(items[i]);
    }
  }

  /** Two different item lists never convert to the same string list. */
  lemma ToStringsInjective(a: seq<int>, b: seq<int>)
    requires ToStrings(a) == ToStrings(b)
    ensures a == b
  {
    ToStringsRoundTrip(a);
    ToStringsRoundTrip(b);
  }

  /** The `provenance_info` dict written to the application log. */
  datatype ProvenanceInfo = ProvenanceInfo(
    timestamp: string,
    userId: int,
    modelVersion: string,
    dataVersion: string,
    numRecommendations: nat)

  /** The arguments of the `log_provenance` call. */
  datatype ProvenanceEntry = ProvenanceEntry(
    userId: int,
    modelVersion: string,
    dataVersion: string,
    recommendations: seq<string>)

  /**
   The flag service as the handler sees it: for a flag key and a user
   context key, its answer, or None when it has none.
   */
  type FlagService = (string, string) -> Option<string>

  /** What one request produces: the response body and both provenance records. */
  datatype Served = Served(
    variant: Variant,
    recommendations: seq<string>,
    info: ProvenanceInfo,
    entry: ProvenanceEntry)

  /** Both provenance records describe this response and this model. */
  ghost predicate Consistent(s: Served, m: Model, userId: int)
  {
    && s.info.numRecommendations == |s.recommendations|
    && s.entry.recommendations == s.recommendations
    && s.info.userId == userId && s.entry.userId == userId
    && s.info.modelVersion == m.savedModelPath && s.entry.modelVersion == m.savedModelPath
    && s.info.dataVersion == m.datasetPath && s.entry.dataVersion == m.datasetPath
  }

  /**
   One request. The flag service is asked about `ExperimentKey` for the
   user context keyed by `str(user_id)`; `timestamp` is the UTC clock reading.
   */
  function GetRecommendations(reg: Registry, flags: FlagService, userId: int, timestamp: string): (s: Served)
    ensures s.variant == Route(Assignment(flags(ExperimentKey, Str(userId))))
    ensures Consistent(s, Resolve(reg, s.variant), userId)
    ensures s.info.timestamp == timestamp
    ensures forall i | 0 <= i < |s.recommendations| :: IsNumeral(s.recommendations[i])
    ensures s.recommendations == ToStrings(Resolve(reg, s.variant).recommend(userId))
    ensures FromStrings(s.recommendations) == Resolve(reg, s.variant).recommend(userId)
  {
    var v := Route(Assignment(flags(ExperimentKey, Str(userId))));
    var m := Resolve(reg, v);
    var recommendations := ToStrings(m.recommend(userId));
    ToStringsRoundTrip(m.recommend(userId));
    var info := ProvenanceInfo(timestamp, userId, m.savedModelPath, m.datasetPath, |recommendations|);
    var entry := ProvenanceEntry(userId, m.savedModelPath, m.datasetPath, recommendations);
    Served(v, recommendations, info, entry)
  }

  /**
   A token the server does not know (say "model_z"), or no answer at all, is
   served by the baseline, and the provenance names the baseline's versions.
   */
  lemma UnknownTokenServedByBaseline(reg: Registry, flags: FlagService, userId: int, timestamp: string)
    requires flags(ExperimentKey, Str(userId)).Some? ==> flags(ExperimentKey, Str(userId)).value !in OverrideTokens
    ensures var s := GetRecommendations(reg, flags, userId, timestamp);
      && s.variant == ModelA
      && s.info.modelVersion == s.entry.modelVersion == reg.modelA.savedModelPath
      && s.info.dataVersion == s.entry.dataVersion == reg.modelA.datasetPath
      && FromStrings(s.recommendations) == reg.modelA.recommend(userId)
  {
  }
}
