/** The command-line options for monitoring alerts
    (pkg/mcclient/options/monitor/alert.go): the alert condition built from
    a metric, tags and a threshold, and the create and update requests.

    Duration parsing (`time.ParseDuration`) is defined outside this model
    and enters as `parseDuration`, which yields the duration in
    nanoseconds or nothing for a malformed string. The threshold, a
    floating-point number in the source, is carried as a `real` and never
    computed with. */
module AlertOptions {
  import opened Wrappers
  import Strings

  /** `monitor.Condition`: a reducer or an evaluator. */
  datatype Condition = Condition(condType: string, params: seq<real>)

  /** `monitor.MetricQueryPart`. */
  datatype QueryPart = QueryPart(partType: string, params: seq<string>)

  /** `monitor.MetricQueryTag`. */
  datatype Tag = Tag(key: string, value: string)

  /** `monitor.MetricQuery`. A select is the list of parts
      `NewMetricQuerySelect` wraps. */
  datatype MetricQuery = MetricQuery(selects: seq<seq<QueryPart>>, measurement: string, database: string,
                                     tags: seq<Tag>)

  /** `monitor.AlertQuery`. */
  datatype AlertQuery = AlertQuery(from: string, model: MetricQuery)

  /** `monitor.AlertCondition`. */
  datatype AlertCondition = AlertCondition(condType: string, operator: string, query: AlertQuery,
                                           reducer: Condition, evaluator: Condition)

  /** `AlertConditionOptions`. */
  datatype ConditionOptions = ConditionOptions(
    reducer: string,
    database: string,
    metric: string,
    comparator: string,
    threshold: real,
    period: string,
    tags: seq<string>)

  /** The tag loop: every tag must split on "=" into exactly two pieces;
      the tags keep their order. */
  function ParseTags(tags: seq<string>): (r: Result<seq<Tag>>)
    ensures r.Ok? <==> forall i :: 0 <= i < |tags| ==> Strings.Count(tags[i], '=') == 1
    ensures r.Err? ==> r.error == InvalidFormat
    ensures r.Ok? ==> |r.value| == |tags| &&
                      forall i :: 0 <= i < |tags| ==>
                        '=' !in r.value[i].key && '=' !in r.value[i].value &&
                        r.value[i].key + "=" + r.value[i].value == tags[i]
  {
    match Strings.SplitPairs(tags, '=')
    case None => Err(InvalidFormat)
    case Some(pairs) => Ok(seq(|pairs|, i requires 0 <= i < |pairs| => Tag(pairs[i].0, pairs[i].1)))
  }

  /** `AlertConditionOptions.Params`: a "query" condition joined with
      "and", over the period, reduced by the reducer and compared against
      the threshold alone. The metric must split on "." into exactly two
      pieces, the measurement and the one field selected. */
  function ConditionParams(opt: ConditionOptions): (r: Result<AlertCondition>)
    ensures r.Ok? <==> Strings.Count(opt.metric, '.') == 1 &&
                       forall i :: 0 <= i < |opt.tags| ==> Strings.Count(opt.tags[i], '=') == 1
    ensures r.Err? ==> r.error == InvalidFormat
    ensures r.Ok? ==>
              var c := r.value;
              c.condType == "query" && c.operator == "and" && c.query.from == opt.period &&
              c.reducer == Condition(opt.reducer, []) &&
              c.evaluator == Condition(opt.comparator, [opt.threshold]) &&
              c.query.model.database == opt.database &&
              var sels := c.query.model.selects;
              |sels| == 1 && |sels[0]| == 1 && sels[0][0].partType == "field" && |sels[0][0].params| == 1 &&
              c.query.model.measurement + "." + sels[0][0].params[0] == opt.metric &&
              '.' !in c.query.model.measurement && '.' !in sels[0][0].params[0] &&
              c.query.model.tags == ParseTags(opt.tags).value
  {
    match Strings.SplitPair(opt.metric, '.')
    case None => Err(InvalidFormat)
    case Some((measurement, field)) =>
      var tags :- ParseTags(opt.tags);
      var model := MetricQuery([[QueryPart("field", [field])]], measurement, opt.database, tags);
      Ok(AlertCondition("query", "and", AlertQuery(opt.period, model),
                        Condition(opt.reducer, []), Condition(opt.comparator, [opt.threshold])))
  }

  /** A metric printed from a measurement and a field, neither holding a
      ".", is read back as that measurement and field. */
  lemma MetricRoundTrip(opt: ConditionOptions, measurement: string, field: string)
    requires '.' !in measurement && '.' !in field
    requires opt.metric == measurement + "." + field
    requires forall i :: 0 <= i < |opt.tags| ==> Strings.Count(opt.tags[i], '=') == 1
    ensures ConditionParams(opt).Ok?
    ensures ConditionParams(opt).value.query.model.measurement == measurement
    ensures ConditionParams(opt).value.query.model.selects == [[QueryPart("field", [field])]]
  {
    Strings.SplitPairRoundTrip(measurement, field, '.');
  }

  /** `int64(d / time.Second)`: Go's integer division truncates toward
      zero, so a negative duration rounds up, unlike Dafny's `/`. */
  function WholeSeconds(nanos: int): (r: int)
    ensures nanos >= 0 ==> r >= 0 && r * 1_000_000_000 <= nanos < (r + 1) * 1_000_000_000
    ensures nanos < 0 ==> r <= 0 && (r - 1) * 1_000_000_000 < nanos <= r * 1_000_000_000
  {
    if nanos >= 0 then nanos / 1_000_000_000 else -((-nanos) / 1_000_000_000)
  }

  /** Minus one and a half seconds is minus one whole second, not minus
      two. */
  lemma WholeSecondsTruncates()
    ensures WholeSeconds(-1_500_000_000) == -1
    ensures -1_500_000_000 / 1_000_000_000 == -2
  {
  }

  /** `AlertCreateOptions`. */
  datatype CreateOptions = CreateOptions(condition: ConditionOptions, name: string, frequency: string,
                                         enabled: bool, level: string)

  /** `monitor.AlertCreateInput`, with the settings reduced to their
      condition list. */
  datatype CreateInput = CreateInput(name: string, frequency: int, enabled: bool,
                                     conditions: seq<AlertCondition>)

  /** `AlertCreateOptions.Params`: the name is copied; a non-empty
      frequency must parse and is stored in whole seconds (zero when
      absent); then the condition is built, and the request holds exactly
      that one condition. A bad frequency is reported before the
      condition is looked at. */
  function CreateParams(opt: CreateOptions, parseDuration: string -> Option<int>): (r: Result<CreateInput>)
    ensures opt.frequency != "" && parseDuration(opt.frequency).None? ==> r == Err(InputParameter)
    ensures r.Ok? <==> (opt.frequency == "" || parseDuration(opt.frequency).Some?) &&
                       ConditionParams(opt.condition).Ok?
    ensures r.Ok? ==>
              r.value.name == opt.name && r.value.enabled == opt.enabled &&
              r.value.conditions == [ConditionParams(opt.condition).value] &&
              r.value.frequency == (if opt.frequency == "" then 0
                                    else WholeSeconds(parseDuration(opt.frequency).value))
  {
    var frequency :-
      if opt.frequency == "" then Ok(0)
      else match parseDuration(opt.frequency)
        case None => Err(InputParameter)
        case Some(nanos) => Ok(WholeSeconds(nanos));
    var cond :- ConditionParams(opt.condition);
    Ok(CreateInput(opt.name, frequency, opt.enabled, [cond]))
  }

  /** `AlertUpdateOptions`. */
  datatype UpdateOptions = UpdateOptions(id: string, name: string, frequency: string)

  /** `monitor.AlertUpdateInput`: the frequency is absent unless given. */
  datatype UpdateInput = UpdateInput(name: string, frequency: Option<int>)

  /** `AlertUpdateOptions.Params`: the name is set only when given, which
      for a string field is the same as copying it; the frequency is left
      absent when empty and otherwise must parse, in whole seconds. */
  function UpdateParams(opt: UpdateOptions, parseDuration: string -> Option<int>): (r: Result<UpdateInput>)
    ensures r.Err? <==> opt.frequency != "" && parseDuration(opt.frequency).None?
    ensures r.Err? ==> r.error == InputParameter
    ensures r.Ok? ==> r.value.name == opt.name &&
                      (r.value.frequency.None? <==> opt.frequency == "") &&
                      (r.value.frequency.Some? ==> r.value.frequency.value == WholeSeconds(parseDuration(opt.frequency).value))
  {
    var name := if opt.name != "" then opt.name else "";
    if opt.frequency == "" then Ok(UpdateInput(name, None))
    else match parseDuration(opt.frequency)
      case None => Err(InputParameter)
      case Some(nanos) => Ok(UpdateInput(name, Some(WholeSeconds(nanos))))
  }
}
