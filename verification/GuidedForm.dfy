/**
 The guided launch form: one field per catalog parameter, filled from operator input, and
 turned into a launch request once every required field is set.
 */
module GuidedForm {
  import opened Wrappers
  import opened EnvPairs

  // ----- the command catalog -----

  datatype ParamKind = TextParam | FlagParam

  datatype Param = Param(name: string, required: bool, kind: ParamKind)

  datatype Policy = InApp | Handoff | Hidden

  datatype CommandId = Launch | Other(index: nat)

  datatype Row = Row(policy: Policy, params: seq<Param>)

  type Catalog = CommandId -> Row

  const LAUNCH_ROW: Row := Row(Handoff, [
    Param("message", false, TextParam), Param("--agents", true, TextParam),
    Param("--session-name", false, TextParam), Param("--headless", false, FlagParam),
    Param("--provider", false, TextParam), Param("--allowed-tools", false, TextParam),
    Param("--async", false, FlagParam), Param("--auto-approve", false, FlagParam),
    Param("--yolo", false, FlagParam), Param("--working-directory", false, TextParam),
    Param("--memory", false, FlagParam), Param("--env", false, TextParam)])

  predicate DistinctNames(params: seq<Param>) {
    forall i, j :: 0 <= i < j < |params| ==> params[i].name != params[j].name
  }

  ghost predicate GoodCatalog(catalog: Catalog) {
    catalog(Launch) == LAUNCH_ROW && forall id :: DistinctNames(catalog(id).params)
  }

  // ----- fields in form order -----

  const GUIDED_STEP_ORDER: seq<string> := ["--agents", "--provider", "--session-name"]

  datatype FieldKind = TextField | FlagField | Positional

  datatype FieldValue = Text(text: string) | Flag(on: bool) | Env(pairs: map<string, string>)

  datatype Field = Field(name: string, kind: FieldKind, required: bool, value: Option<FieldValue>)

  function FieldOf(param: Param): Field {
    var kind := if param.kind.FlagParam? then FlagField
                else if "--" <= param.name then TextField else Positional;
    Field(param.name, kind, param.required, None)
  }

  function FieldsOf(params: seq<Param>): (fields: seq<Field>)
    ensures |fields| == |params| && forall i :: 0 <= i < |params| ==> fields[i] == FieldOf(params[i])
  {
    if |params| == 0 then [] else FieldsOf(params[..|params| - 1]) + [FieldOf(params[|params| - 1])]
  }

  /** The first parameter with the given name, if any. */
  function Named(params: seq<Param>, name: string): seq<Param> {
    if |params| == 0 then []
    else if params[0].name == name then [params[0]]
    else Named(params[1..], name)
  }

  /** The parameters that are none of the steps, in their own order. */
  function Rest(params: seq<Param>, steps: seq<string>): seq<Param> {
    if |params| == 0 then []
    else
      var last := params[|params| - 1];
      Rest(params[..|params| - 1], steps) + (if last.name in steps then [] else [last])
  }

  function Guided(params: seq<Param>, steps: seq<string>): seq<Param> {
    if |steps| == 0 then [] else Guided(params, steps[..|steps| - 1]) + Named(params, steps[|steps| - 1])
  }

  function Arranged(params: seq<Param>): seq<Param> {
    Guided(params, GUIDED_STEP_ORDER) + Rest(params, GUIDED_STEP_ORDER)
  }

  /** `build_fields`, first loop: the parameters that are guided steps, in step order. */
  method StepFields(params: seq<Param>, steps: seq<string>) returns (ordered: seq<Field>)
    ensures ordered == FieldsOf(Guided(params, steps))
  {
    ordered := [];
    for k := 0 to |steps|
      invariant ordered == FieldsOf(Guided(params, steps[..k]))
    {
      assert steps[..k + 1][..k] == steps[..k];
      var found := Named(params, steps[k]);
      FieldsOfAppend(Guided(params, steps[..k]), found);
      NamedIsSingle(params, steps[k]);
      if |found| > 0 {
        ordered := ordered + [FieldOf(found[0])];
      }
    }
    assert steps[..|steps|] == steps;
  }

  lemma RestStep(front: seq<Param>, params: seq<Param>, steps: seq<string>, i: nat)
    requires i < |params|
    ensures FieldsOf(front + Rest(params[..i + 1], steps))
         == FieldsOf(front + Rest(params[..i], steps)) + (if params[i].name in steps then [] else [FieldOf(params[i])])
  {
    assert params[..i + 1][..i] == params[..i];
    var more := if params[i].name in steps then [] else [params[i]];
    assert front + Rest(params[..i + 1], steps) == front + Rest(params[..i], steps) + more;
    FieldsOfAppend(front + Rest(params[..i], steps), more);
  }

  /** `build_fields`: the guided steps first, then every other parameter. */
  method BuildFields(params: seq<Param>) returns (ordered: seq<Field>)
    ensures ordered == FieldsOf(Arranged(params))
  {
    ordered := StepFields(params, GUIDED_STEP_ORDER);
    ghost var front := Guided(params, GUIDED_STEP_ORDER);
    assert front + [] == front;
    for i := 0 to |params|
      invariant ordered == FieldsOf(front + Rest(params[..i], GUIDED_STEP_ORDER))
    {
      RestStep(front, params, GUIDED_STEP_ORDER, i);
      if params[i].name !in GUIDED_STEP_ORDER {
        ordered := ordered + [FieldOf(params[i])];
      }
    }
    assert params[..|params|] == params;
  }

  lemma FieldsOfAppend(a: seq<Param>, b: seq<Param>)
    ensures FieldsOf(a + b) == FieldsOf(a) + FieldsOf(b)
  {
  }

  lemma {:induction false} NamedIsSingle(params: seq<Param>, name: string)
    ensures |Named(params, name)| <= 1
    ensures forall p <- Named(params, name) :: p in params && p.name == name
  {
    if |params| > 0 && params[0].name != name {
      NamedIsSingle(params[1..], name);
    }
  }

  // ----- the field order -----

  lemma {:induction false} RestWithoutStep(params: seq<Param>, steps: seq<string>, step: string)
    requires DistinctNames(params) && step !in steps
    ensures multiset(Rest(params, steps)) == multiset(Rest(params, steps + [step])) + multiset(Named(params, step))
  {
    if |params| > 0 {
      var n := |params| - 1;
      RestWithoutStep(params[..n], steps, step);
      NamedOfLast(params, step);
    }
  }

  lemma {:induction false} NamedOfLast(params: seq<Param>, name: string)
    requires DistinctNames(params) && |params| > 0
    ensures var n := |params| - 1;
         Named(params, name) == Named(params[..n], name) + (if params[n].name == name then [params[n]] else [])
  {
    var n := |params| - 1;
    if n > 0 {
      assert params[1..][..n - 1] == params[..n][1..];
      if params[0].name != name {
        NamedOfLast(params[1..], name);
      }
    }
  }

  lemma {:induction false} GuidedAndRest(params: seq<Param>, steps: seq<string>)
    requires DistinctNames(params) && forall i, j :: 0 <= i < j < |steps| ==> steps[i] != steps[j]
    ensures multiset(Guided(params, steps) + Rest(params, steps)) == multiset(params)
  {
    if |steps| == 0 {
      RestOfNone(params);
    } else {
      var front, step := steps[..|steps| - 1], steps[|steps| - 1];
      assert steps == front + [step];
      GuidedAndRest(params, front);
      RestWithoutStep(params, front, step);
    }
  }

  lemma RestAppend(front: seq<Param>, last: Param, steps: seq<string>)
    ensures Rest(front + [last], steps) == Rest(front, steps) + (if last.name in steps then [] else [last])
  {
    assert (front + [last])[..|front|] == front;
  }

  lemma JoinLast(params: seq<Param>)
    requires |params| > 0
    ensures params[..|params| - 1] + [params[|params| - 1]] == params
  {
  }

  lemma {:induction false} RestOfNone(params: seq<Param>)
    ensures Rest(params, []) == params
  {
    if |params| > 0 {
      var front, last := params[..|params| - 1], params[|params| - 1];
      RestOfNone(front);
      RestAppend(front, last, []);
      JoinLast(params);
    }
  }

  /** The form shows every parameter of the command exactly once. */
  lemma ArrangedIsPermutation(params: seq<Param>)
    requires DistinctNames(params)
    ensures multiset(Arranged(params)) == multiset(params)
  {
    GuidedAndRest(params, GUIDED_STEP_ORDER);
  }

  function Rank(name: string, steps: seq<string>): (k: nat)
    ensures k <= |steps| && (k < |steps| <==> name in steps) && (k < |steps| ==> steps[k] == name)
  {
    if |steps| == 0 || steps[0] == name then 0 else 1 + Rank(name, steps[1..])
  }

  function Position(params: seq<Param>, name: string): (i: nat)
    ensures i <= |params| && (i < |params| ==> params[i].name == name)
    ensures forall j :: 0 <= j < i ==> params[j].name != name
  {
    if |params| == 0 || params[0].name == name then 0 else 1 + Position(params[1..], name)
  }

  /** `a` comes before `b`: an earlier step, or two non-steps in the command's own order. */
  predicate ShownBefore(params: seq<Param>, steps: seq<string>, a: string, b: string) {
    || Rank(a, steps) < Rank(b, steps)
    || (a !in steps && b !in steps && Position(params, a) < Position(params, b))
  }

  lemma {:induction false} GuidedInOrder(params: seq<Param>, steps: seq<string>, i: nat, j: nat)
    requires forall x, y :: 0 <= x < y < |steps| ==> steps[x] != steps[y]
    requires i < j < |Guided(params, steps)|
    ensures Rank(Guided(params, steps)[i].name, steps) < Rank(Guided(params, steps)[j].name, steps) < |steps|
  {
    var front, step := steps[..|steps| - 1], steps[|steps| - 1];
    NamedIsSingle(params, step);
    GuidedNames(params, front);
    assert steps == front + [step];
    RankOfFront(front, step, Guided(params, steps)[i].name);
    if j < |Guided(params, front)| {
      GuidedInOrder(params, front, i, j);
      RankOfFront(front, step, Guided(params, steps)[j].name);
    } else {
      assert Guided(params, steps)[j] in Named(params, step);
      RankOfLast(front, step);
    }
  }

  lemma {:induction false} RankOfFront(front: seq<string>, step: string, name: string)
    ensures name in front ==> Rank(name, front + [step]) == Rank(name, front)
  {
    if |front| > 0 && front[0] != name {
      assert (front + [step])[1..] == front[1..] + [step];
      RankOfFront(front[1..], step, name);
    }
  }

  lemma {:induction false} RankOfLast(front: seq<string>, step: string)
    requires step !in front
    ensures Rank(step, front + [step]) == |front|
  {
    if |front| > 0 {
      assert (front + [step])[1..] == front[1..] + [step];
      RankOfLast(front[1..], step);
    }
  }

  lemma {:induction false} GuidedNames(params: seq<Param>, steps: seq<string>)
    ensures forall p <- Guided(params, steps) :: p.name in steps && p in params
    ensures forall i :: 0 <= i < |Guided(params, steps)| ==> Guided(params, steps)[i].name in steps
  {
    if |steps| > 0 {
      GuidedNames(params, steps[..|steps| - 1]);
      NamedIsSingle(params, steps[|steps| - 1]);
    }
  }

  lemma {:induction false} RestInOrder(params: seq<Param>, steps: seq<string>, i: nat, j: nat)
    requires DistinctNames(params) && i < j < |Rest(params, steps)|
    ensures Position(params, Rest(params, steps)[i].name) < Position(params, Rest(params, steps)[j].name)
  {
    var n := |params| - 1;
    var front := params[..n];
    RestNames(front, steps);
    PositionInFront(params, Rest(params, steps)[i].name);
    if j < |Rest(front, steps)| {
      RestInOrder(front, steps, i, j);
      PositionInFront(params, Rest(params, steps)[j].name);
    } else {
      assert Rest(params, steps)[j] == params[n];
      assert Rest(front, steps)[i] in front;
    }
  }

  lemma PositionInFront(params: seq<Param>, name: string)
    requires |params| > 0 && exists p <- params[..|params| - 1] :: p.name == name
    ensures Position(params, name) == Position(params[..|params| - 1], name) < |params| - 1
  {
    var front := params[..|params| - 1];
    var p :| p in front && p.name == name;
    var k :| 0 <= k < |front| && front[k] == p;
    assert forall j :: 0 <= j < |front| ==> params[j] == front[j];
  }

  lemma {:induction false} RestNames(params: seq<Param>, steps: seq<string>)
    ensures forall p <- Rest(params, steps) :: p.name !in steps && p in params
    ensures forall i :: 0 <= i < |Rest(params, steps)| ==> Rest(params, steps)[i].name !in steps
  {
    if |params| > 0 {
      RestNames(params[..|params| - 1], steps);
    }
  }

  /** Two fields of a form appear in step order, then in the command's own order. */
  lemma ArrangedInOrder(params: seq<Param>, i: nat, j: nat)
    requires DistinctNames(params) && i < j < |Arranged(params)|
    ensures ShownBefore(params, GUIDED_STEP_ORDER, Arranged(params)[i].name, Arranged(params)[j].name)
  {
    StepsDiffer();
    InOrderBy(params, GUIDED_STEP_ORDER, i, j);
  }

  lemma StepsDiffer()
    ensures forall x, y :: 0 <= x < y < |GUIDED_STEP_ORDER| ==> GUIDED_STEP_ORDER[x] != GUIDED_STEP_ORDER[y]
  {
  }

  lemma FrontInOrder(params: seq<Param>, steps: seq<string>, front: seq<Param>, i: nat, j: nat)
    requires forall x, y :: 0 <= x < y < |steps| ==> steps[x] != steps[y]
    requires front == Guided(params, steps) && i < j < |front|
    ensures ShownBefore(params, steps, front[i].name, front[j].name)
  {
    GuidedInOrder(params, steps, i, j);
  }

  lemma BackInOrder(params: seq<Param>, steps: seq<string>, back: seq<Param>, i: nat, j: nat)
    requires DistinctNames(params) && back == Rest(params, steps) && i < j < |back|
    ensures ShownBefore(params, steps, back[i].name, back[j].name)
  {
    RestNames(params, steps);
    RestInOrder(params, steps, i, j);
  }

  lemma FrontBeforeBack(params: seq<Param>, steps: seq<string>, front: seq<Param>, back: seq<Param>, i: nat, j: nat)
    requires front == Guided(params, steps) && back == Rest(params, steps) && i < |front| && j < |back|
    ensures ShownBefore(params, steps, front[i].name, back[j].name)
  {
    GuidedNames(params, steps);
    RestNames(params, steps);
    StepBeforeRest(params, steps, front[i].name, back[j].name);
  }

  lemma AtJoin(front: seq<Param>, back: seq<Param>, i: nat)
    requires i < |front + back|
    ensures (front + back)[i] == if i < |front| then front[i] else back[i - |front|]
  {
  }

  lemma InOrderBy(params: seq<Param>, steps: seq<string>, i: nat, j: nat)
    requires DistinctNames(params) && forall x, y :: 0 <= x < y < |steps| ==> steps[x] != steps[y]
    requires i < j < |Guided(params, steps) + Rest(params, steps)|
    ensures var all := Guided(params, steps) + Rest(params, steps);
         ShownBefore(params, steps, all[i].name, all[j].name)
  {
    var front, back := Guided(params, steps), Rest(params, steps);
    var g := |front|;
    AtJoin(front, back, i);
    AtJoin(front, back, j);
    if j < g {
      FrontInOrder(params, steps, front, i, j);
    } else if i < g {
      FrontBeforeBack(params, steps, front, back, i, j - g);
    } else {
      BackInOrder(params, steps, back, i - g, j - g);
    }
  }

  lemma StepBeforeRest(params: seq<Param>, steps: seq<string>, a: string, b: string)
    requires a in steps && b !in steps
    ensures ShownBefore(params, steps, a, b)
  {
  }

  // ----- the form as a value -----

  datatype TuiError = TuiError(message: string)

  datatype Profile = Profile(name: string, loadable: bool, description: string)

  datatype Provider = Provider(name: string, installed: bool)

  datatype PickerState<+T> = Loading | Loaded(choices: seq<T>) | Failed(error: TuiError)

  datatype PickerUpdate =
    | Agents(profiles: Result<seq<Profile>, TuiError>)
    | Providers(providers: Result<seq<Provider>, TuiError>)

  datatype Form = Form(
    current: Option<CommandId>, fields: seq<Field>,
    agents: PickerState<Profile>, providers: PickerState<Provider>)

  datatype FormError =
    | HiddenCommand | UnknownField(name: string) | NotAFlag(name: string) | BadEnv(cause: EnvError)
    | UnloadableProfile(name: string) | NotLaunch | Incomplete(missing: seq<Field>)

  const EMPTY_FORM := Form(None, [], Loading, Loading)

  /** The first field with the name; `|fields|` when there is none. */
  function FieldIndex(fields: seq<Field>, name: string): (i: nat)
    ensures i <= |fields| && (i < |fields| ==> fields[i].name == name)
    ensures forall j :: 0 <= j < i ==> fields[j].name != name
  {
    if |fields| == 0 || fields[0].name == name then 0 else 1 + FieldIndex(fields[1..], name)
  }

  predicate Unloadable(agents: PickerState<Profile>, name: string) {
    agents.Loaded? && exists p <- agents.choices :: p.name == name && !p.loadable
  }

  /** What a non-blank entry stores in a field of the given kind and name. */
  function ValueOf(agents: PickerState<Profile>, kind: FieldKind, name: string, trimmed: string)
    : Result<FieldValue, FormError>
  {
    if kind.FlagField? then
      if trimmed == "true" then Success(Flag(true))
      else if trimmed == "false" then Success(Flag(false))
      else Failure(NotAFlag(name))
    else if name == "--env" then
      match Parse(trimmed)
      case Failure(e) => Failure(BadEnv(e))
      case Success(pairs) => Success(Env(pairs))
    else if name == "--agents" && Unloadable(agents, trimmed) then Failure(UnloadableProfile(trimmed))
    else Success(Text(trimmed))
  }

  function SelectForm(catalog: Catalog, form: Form, id: CommandId): Result<Form, FormError> {
    if catalog(id).policy.Hidden? then Failure(HiddenCommand)
    else Success(form.(current := Some(id), fields := FieldsOf(Arranged(catalog(id).params))))
  }

  function Store(fields: seq<Field>, i: nat, value: Option<FieldValue>): seq<Field>
    requires i < |fields|
  {
    fields[i := fields[i].(value := value)]
  }

  function SetForm(form: Form, name: string, text: string): Result<Form, FormError> {
    var i := FieldIndex(form.fields, name);
    if i == |form.fields| then Failure(UnknownField(name))
    else if Trim(text) == "" then Success(form.(fields := Store(form.fields, i, None)))
    else
      match ValueOf(form.agents, form.fields[i].kind, name, Trim(text))
      case Failure(e) => Failure(e)
      case Success(value) => Success(form.(fields := Store(form.fields, i, Some(value))))
  }

  function PickerOf<T>(answer: Result<seq<T>, TuiError>): PickerState<T> {
    match answer
    case Success(items) => Loaded(items)
    case Failure(e) => Failed(e)
  }

  function ApplyForm(form: Form, update: PickerUpdate): Form {
    match update
    case Agents(answer) => form.(agents := PickerOf(answer))
    case Providers(answer) => form.(providers := PickerOf(answer))
  }

  function MissingOf(fields: seq<Field>): seq<Field> {
    if |fields| == 0 then []
    else
      var last := fields[|fields| - 1];
      MissingOf(fields[..|fields| - 1]) + (if last.required && last.value.None? then [last] else [])
  }

  predicate CanRun(form: Form) {
    form.current.Some? && MissingOf(form.fields) == []
  }

  datatype SessionParams = SessionParams(
    agents: string, provider: Option<string>, sessionName: Option<string>, workingDirectory: Option<string>,
    allowedTools: Option<string>, envVars: Option<map<string, string>>, initialMessage: Option<string>)

  function TextOf(fields: seq<Field>, name: string): Option<string> {
    var i := FieldIndex(fields, name);
    if i < |fields| && fields[i].value.Some? && fields[i].value.value.Text?
    then Some(fields[i].value.value.text) else None
  }

  function EnvOf(fields: seq<Field>, name: string): Option<map<string, string>> {
    var i := FieldIndex(fields, name);
    if i < |fields| && fields[i].value.Some? && fields[i].value.value.Env? && fields[i].value.value.pairs != map[]
    then Some(fields[i].value.value.pairs) else None
  }

  /** The launch parameters with a place in the request, in the order of its fields. */
  const WIRED: seq<string> := [
    "--agents", "--provider", "--session-name", "--working-directory", "--allowed-tools", "--env", "message"]

  function RequestOf(fields: seq<Field>, names: seq<string>): SessionParams
    requires |names| == 7 && TextOf(fields, names[0]).Some?
  {
    SessionParams(
      TextOf(fields, names[0]).value, TextOf(fields, names[1]), TextOf(fields, names[2]),
      TextOf(fields, names[3]), TextOf(fields, names[4]), EnvOf(fields, names[5]), TextOf(fields, names[6]))
  }

  function ToParams(form: Form): Result<SessionParams, FormError> {
    if form.current != Some(Launch) then Failure(NotLaunch)
    else if MissingOf(form.fields) != [] then Failure(Incomplete(MissingOf(form.fields)))
    else if TextOf(form.fields, WIRED[0]).None? then Failure(Incomplete([AGENTS_FIELD]))
    else Success(RequestOf(form.fields, WIRED))
  }

  const AGENTS_FIELD := Field("--agents", TextField, true, None)

  // ----- the invariant over all runs -----

  /** A stored value fits its field: trimmed non-empty text, or non-empty kept variables. */
  predicate GoodValue(f: Field) {
    match f.value
    case None => true
    case Some(Flag(_)) => f.kind.FlagField?
    case Some(Text(t)) => !f.kind.FlagField? && f.name != "--env" && t != "" && Trim(t) == t
    case Some(Env(pairs)) =>
      && !f.kind.FlagField? && f.name == "--env" && pairs != map[]
      && forall key <- pairs :: Printable(key, pairs[key])
  }

  /** The fields are the command's parameters in form order, holding good values. */
  ghost predicate GoodForm(catalog: Catalog, form: Form) {
    match form.current
    case None => form.fields == []
    case Some(id) =>
      var blank := FieldsOf(Arranged(catalog(id).params));
      && !catalog(id).policy.Hidden? && |form.fields| == |blank|
      && forall i :: 0 <= i < |blank| ==> form.fields[i].(value := None) == blank[i] && GoodValue(form.fields[i])
  }

  datatype Action = Select(id: CommandId) | Set(name: string, text: string) | Update(update: PickerUpdate)

  /** One action; a refused one leaves the form as it was. */
  function Act(catalog: Catalog, form: Form, action: Action): Form {
    match action
    case Select(id) => if SelectForm(catalog, form, id).Success? then SelectForm(catalog, form, id).value else form
    case Set(name, text) => if SetForm(form, name, text).Success? then SetForm(form, name, text).value else form
    case Update(update) => ApplyForm(form, update)
  }

  function Run(catalog: Catalog, form: Form, actions: seq<Action>): Form {
    if |actions| == 0 then form else Act(catalog, Run(catalog, form, actions[..|actions| - 1]), actions[|actions| - 1])
  }

  lemma {:induction false} TrimIdempotent(s: string)
    ensures Trim(Trim(s)) == Trim(s)
  {
  }

  lemma ValueIsGood(agents: PickerState<Profile>, f: Field, text: string, value: FieldValue)
    requires Trim(text) != "" && ValueOf(agents, f.kind, f.name, Trim(text)) == Success(value)
    ensures GoodValue(f.(value := Some(value)))
  {
    TrimIdempotent(text);
    if !f.kind.FlagField? && f.name == "--env" {
      EmptyExactlyWhenBlank(Trim(text));
      forall key | key in value.pairs
        ensures Printable(key, value.pairs[key])
      {
        ParseIsPrintable(Trim(text), key);
      }
    }
  }

  lemma StoreKeepsGoodForm(catalog: Catalog, form: Form, i: nat, value: Option<FieldValue>)
    requires GoodForm(catalog, form) && i < |form.fields| && GoodValue(form.fields[i].(value := value))
    ensures GoodForm(catalog, form.(fields := Store(form.fields, i, value)))
  {
  }

  lemma SetKeepsGoodForm(catalog: Catalog, form: Form, name: string, text: string)
    requires GoodForm(catalog, form) && SetForm(form, name, text).Success?
    ensures GoodForm(catalog, SetForm(form, name, text).value)
  {
    var i := FieldIndex(form.fields, name);
    var f := form.fields[i];
    if Trim(text) == "" {
      StoreKeepsGoodForm(catalog, form, i, None);
    } else {
      var value := ValueOf(form.agents, f.kind, name, Trim(text)).value;
      ValueIsGood(form.agents, f, text, value);
      StoreKeepsGoodForm(catalog, form, i, Some(value));
    }
  }

  lemma SelectKeepsGoodForm(catalog: Catalog, form: Form, id: CommandId)
    requires SelectForm(catalog, form, id).Success?
    ensures GoodForm(catalog, SelectForm(catalog, form, id).value)
  {
  }

  lemma ActKeepsGoodForm(catalog: Catalog, form: Form, action: Action)
    requires GoodForm(catalog, form)
    ensures GoodForm(catalog, Act(catalog, form, action))
  {
    match action
    case Select(id) =>
      if SelectForm(catalog, form, id).Success? {
        SelectKeepsGoodForm(catalog, form, id);
      }
    case Set(name, text) =>
      if SetForm(form, name, text).Success? {
        SetKeepsGoodForm(catalog, form, name, text);
      }
    case Update(_) =>
  }

  /** Every sequence of selections, entries and picker answers keeps the form good. */
  lemma {:induction false} RunsKeepGoodForm(catalog: Catalog, actions: seq<Action>)
    ensures GoodForm(catalog, Run(catalog, EMPTY_FORM, actions))
  {
    if |actions| > 0 {
      RunsKeepGoodForm(catalog, actions[..|actions| - 1]);
      ActKeepsGoodForm(catalog, Run(catalog, EMPTY_FORM, actions[..|actions| - 1]), actions[|actions| - 1]);
    }
  }

  /** The fields of a good form: the command's parameters, each once, in form order. */
  lemma FieldsAreArranged(catalog: Catalog, form: Form, i: nat, j: nat)
    requires GoodCatalog(catalog) && GoodForm(catalog, form) && i < j < |form.fields|
    ensures form.current.Some?
    ensures var params := catalog(form.current.value).params;
         && ShownBefore(params, GUIDED_STEP_ORDER, form.fields[i].name, form.fields[j].name)
         && form.fields[i].name != form.fields[j].name
  {
    var params := catalog(form.current.value).params;
    ArrangedInOrder(params, i, j);
    assert form.fields[i].(value := None) == FieldOf(Arranged(params)[i]);
    assert form.fields[j].(value := None) == FieldOf(Arranged(params)[j]);
    if Arranged(params)[i].name == Arranged(params)[j].name {
      ShownBeforeIsStrict(params, GUIDED_STEP_ORDER, Arranged(params)[i].name);
    }
  }

  lemma ShownBeforeIsStrict(params: seq<Param>, steps: seq<string>, a: string)
    ensures !ShownBefore(params, steps, a, a)
  {
  }

  // ----- the gate and the request -----

  lemma {:induction false} MissingExactly(fields: seq<Field>)
    ensures MissingOf(fields) == [] <==> forall f <- fields :: f.required ==> f.value.Some?
  {
    if |fields| > 0 {
      MissingExactly(fields[..|fields| - 1]);
      assert fields == fields[..|fields| - 1] + [fields[|fields| - 1]];
    }
  }

  lemma {:induction false} MissingIsOne(fields: seq<Field>, f: Field)
    requires f in fields && f.required && f.value.None?
    requires forall i, j :: 0 <= i < j < |fields| ==> fields[i].name != fields[j].name
    requires forall g <- fields :: g.required ==> g.name == f.name
    ensures MissingOf(fields) == [f]
  {
    var n := |fields| - 1;
    if fields[n] == f {
      forall g | g in fields[..n]
        ensures !g.required
      {
        var i :| 0 <= i < n && fields[i] == g;
        assert fields[i].name != fields[n].name;
      }
      NothingMissing(fields[..n]);
    } else {
      assert f in fields[..n];
      MissingIsOne(fields[..n], f);
      assert fields[n].name != f.name;
    }
  }

  lemma {:induction false} NothingMissing(fields: seq<Field>)
    requires forall f <- fields :: !f.required
    ensures MissingOf(fields) == []
  {
    MissingExactly(fields);
  }

  lemma LaunchParamsRequireAgents()
    ensures Param("--agents", true, TextParam) in LAUNCH_ROW.params
    ensures forall p <- LAUNCH_ROW.params :: p.required ==> p.name == "--agents"
    ensures FieldOf(Param("--agents", true, TextParam)) == AGENTS_FIELD
  {
    assert LAUNCH_ROW.params[1] == Param("--agents", true, TextParam);
    forall p | p in LAUNCH_ROW.params
      ensures p.required ==> p.name == "--agents"
    {
      var i :| 0 <= i < |LAUNCH_ROW.params| && LAUNCH_ROW.params[i] == p;
    }
  }

  /** Each field of a good form comes from one parameter of its command. */
  lemma FieldParam(catalog: Catalog, form: Form, params: seq<Param>, i: nat) returns (p: Param)
    requires GoodForm(catalog, form) && form.current.Some? && params == catalog(form.current.value).params
    requires DistinctNames(params) && i < |form.fields|
    ensures p in params && form.fields[i].(value := None) == FieldOf(p)
  {
    ArrangedIsPermutation(params);
    p := Arranged(params)[i];
    assert p in multiset(Arranged(params));
  }

  /** And each parameter has its field. */
  lemma ParamField(catalog: Catalog, form: Form, params: seq<Param>, p: Param) returns (i: nat)
    requires GoodForm(catalog, form) && form.current.Some? && params == catalog(form.current.value).params
    requires DistinctNames(params) && p in params
    ensures i < |form.fields| && form.fields[i].(value := None) == FieldOf(p)
  {
    ArrangedIsPermutation(params);
    assert p in multiset(params);
    assert p in multiset(Arranged(params));
    i :| 0 <= i < |Arranged(params)| && Arranged(params)[i] == p;
  }

  /** When one parameter alone is required, its field alone is. */
  lemma OnlyRequiredField(catalog: Catalog, form: Form, params: seq<Param>, p: Param) returns (i: nat)
    requires GoodCatalog(catalog) && GoodForm(catalog, form) && form.current.Some?
    requires params == catalog(form.current.value).params && p in params
    requires forall q <- params :: q.required ==> q.name == p.name
    ensures i < |form.fields| && form.fields[i].(value := None) == FieldOf(p)
    ensures forall j :: 0 <= j < |form.fields| && j != i ==>
         !form.fields[j].required && form.fields[j].name != p.name
  {
    i := ParamField(catalog, form, params, p);
    forall j | 0 <= j < |form.fields| && j != i
      ensures !form.fields[j].required && form.fields[j].name != p.name
    {
      var q := FieldParam(catalog, form, params, j);
      FieldsAreArranged(catalog, form, if i < j then i else j, if i < j then j else i);
    }
  }

  /** On the launch form the one required field is `--agents`, and it is there. */
  lemma AgentsField(catalog: Catalog, form: Form) returns (i: nat)
    requires GoodCatalog(catalog) && GoodForm(catalog, form) && form.current == Some(Launch)
    ensures i < |form.fields| && form.fields[i].(value := None) == AGENTS_FIELD
    ensures FieldIndex(form.fields, "--agents") == i
    ensures forall j :: 0 <= j < |form.fields| && j != i ==> !form.fields[j].required
  {
    LaunchParamsRequireAgents();
    i := OnlyRequiredField(catalog, form, LAUNCH_ROW.params, Param("--agents", true, TextParam));
  }

  lemma OneRequiredField(fields: seq<Field>, i: nat)
    requires i < |fields| && fields[i].required
    requires forall x, y :: 0 <= x < y < |fields| ==> fields[x].name != fields[y].name
    requires forall j :: 0 <= j < |fields| && j != i ==> !fields[j].required
    ensures MissingOf(fields) == if fields[i].value.None? then [fields[i]] else []
  {
    MissingExactly(fields);
    if fields[i].value.None? {
      MissingIsOne(fields, fields[i]);
    }
  }

  /**
   The request can be built exactly when the command is `launch` and the gate is open; a
   closed gate names the one unset required field.
   */
  lemma RequestExactlyWhenOpen(catalog: Catalog, form: Form)
    requires GoodCatalog(catalog) && GoodForm(catalog, form)
    ensures ToParams(form).Success? <==> form.current == Some(Launch) && CanRun(form)
    ensures form.current == Some(Launch) && !CanRun(form) ==> ToParams(form) == Failure(Incomplete([AGENTS_FIELD]))
    ensures ToParams(form).Success? ==>
      && ToParams(form).value.agents != "" && Trim(ToParams(form).value.agents) == ToParams(form).value.agents
  {
    if form.current == Some(Launch) {
      var i := AgentsField(catalog, form);
      forall x, y | 0 <= x < y < |form.fields|
        ensures form.fields[x].name != form.fields[y].name
      {
        FieldsAreArranged(catalog, form, x, y);
      }
      OneRequiredField(form.fields, i);
      assert GoodValue(form.fields[i]);
      TextOfAgents(form.fields, i);
    }
  }

  lemma TextOfAgents(fields: seq<Field>, i: nat)
    requires i < |fields| && fields[i].(value := None) == AGENTS_FIELD && GoodValue(fields[i])
    requires FieldIndex(fields, "--agents") == i
    ensures WIRED[0] == "--agents"
    ensures fields[i].value.None? ==> fields[i] == AGENTS_FIELD
    ensures fields[i].value.Some? ==>
      && TextOf(fields, WIRED[0]).Some? && TextOf(fields, WIRED[0]).value != ""
      && Trim(TextOf(fields, WIRED[0]).value) == TextOf(fields, WIRED[0]).value
  {
  }

  // ----- what one entry changes -----

  lemma {:induction false} IndexAfterStore(fields: seq<Field>, i: nat, value: Option<FieldValue>, name: string)
    requires i < |fields|
    ensures FieldIndex(Store(fields, i, value), name) == FieldIndex(fields, name)
  {
    if fields[0].name != name && |fields| > 1 {
      if i > 0 {
        assert Store(fields, i, value)[1..] == Store(fields[1..], i - 1, value);
        IndexAfterStore(fields[1..], i - 1, value, name);
      } else {
        assert Store(fields, i, value)[1..] == fields[1..];
      }
    }
  }

  /** The request with its `k`-th part replaced; unchanged when there is no such part. */
  function WithPart(p: SessionParams, k: nat, text: Option<string>, env: Option<map<string, string>>): SessionParams {
    match k
    case 0 => if text.Some? then p.(agents := text.value) else p
    case 1 => p.(provider := text)
    case 2 => p.(sessionName := text)
    case 3 => p.(workingDirectory := text)
    case 4 => p.(allowedTools := text)
    case 5 => p.(envVars := env)
    case 6 => p.(initialMessage := text)
    case _ => p
  }

  const UNWIRABLE_LAUNCH_FLAGS: seq<string> := ["--headless", "--async", "--auto-approve", "--yolo", "--memory"]

  lemma LaunchParamIsWiredOrFlag(i: nat)
    requires i < |LAUNCH_ROW.params|
    ensures var p := LAUNCH_ROW.params[i];
         && (p.kind.FlagParam? ==> p.name in UNWIRABLE_LAUNCH_FLAGS && p.name !in WIRED)
         && (p.kind.TextParam? ==> p.name in WIRED && p.name !in UNWIRABLE_LAUNCH_FLAGS)
  {
  }

  lemma LaunchParamsAreWiredOrFlags()
    ensures forall p <- LAUNCH_ROW.params :: p.kind.FlagParam? <==> p.name !in WIRED
    ensures forall p <- LAUNCH_ROW.params :: p.kind.FlagParam? <==> p.name in UNWIRABLE_LAUNCH_FLAGS
  {
    forall p | p in LAUNCH_ROW.params
      ensures p.kind.FlagParam? <==> p.name !in WIRED
      ensures p.kind.FlagParam? <==> p.name in UNWIRABLE_LAUNCH_FLAGS
    {
      var k :| 0 <= k < |LAUNCH_ROW.params| && LAUNCH_ROW.params[k] == p;
      LaunchParamIsWiredOrFlag(k);
    }
  }

  /** On the launch form the flags are exactly the fields the request has no place for. */
  lemma LaunchKinds(catalog: Catalog, form: Form, i: nat)
    requires GoodCatalog(catalog) && GoodForm(catalog, form) && form.current == Some(Launch)
    requires i < |form.fields|
    ensures form.fields[i].kind.FlagField? <==> form.fields[i].name !in WIRED
    ensures form.fields[i].kind.FlagField? <==> form.fields[i].name in UNWIRABLE_LAUNCH_FLAGS
  {
    LaunchParamsAreWiredOrFlags();
    var p := FieldParam(catalog, form, catalog(Launch).params, i);
    KindOfField(form.fields[i], p, WIRED, UNWIRABLE_LAUNCH_FLAGS);
  }

  lemma KindOfField(f: Field, p: Param, wired: seq<string>, flags: seq<string>)
    requires f.(value := None) == FieldOf(p)
    requires (p.kind.FlagParam? <==> p.name !in wired) && (p.kind.FlagParam? <==> p.name in flags)
    ensures (f.kind.FlagField? <==> f.name !in wired) && (f.kind.FlagField? <==> f.name in flags)
  {
  }

  /** What one entry does to each lookup of the request builder. */
  lemma LookupsAfterEntry(form: Form, name: string, text: string, g: Form)
    requires SetForm(form, name, text) == Success(g)
    requires !form.fields[FieldIndex(form.fields, name)].kind.FlagField?
    ensures name != "--env" ==> TextOf(g.fields, name) == if Trim(text) == "" then None else Some(Trim(text))
    ensures name == "--env" ==>
      EnvOf(g.fields, name) == if Trim(text) == "" then None else Some(Parse(Trim(text)).value)
  {
    if name == "--env" {
      EnvAfterEntry(form, name, text, g);
    } else {
      TextAfterEntry(form, name, text, g);
    }
  }

  lemma TextAfterEntry(form: Form, name: string, text: string, g: Form)
    requires SetForm(form, name, text) == Success(g) && name != "--env"
    requires !form.fields[FieldIndex(form.fields, name)].kind.FlagField?
    ensures TextOf(g.fields, name) == if Trim(text) == "" then None else Some(Trim(text))
  {
    var i := FieldIndex(form.fields, name);
    IndexAfterStore(form.fields, i, g.fields[i].value, name);
  }

  lemma EnvAfterEntry(form: Form, name: string, text: string, g: Form)
    requires SetForm(form, name, text) == Success(g) && name == "--env"
    requires !form.fields[FieldIndex(form.fields, name)].kind.FlagField?
    ensures EnvOf(g.fields, name) == if Trim(text) == "" then None else Some(Parse(Trim(text)).value)
  {
    var i := FieldIndex(form.fields, name);
    IndexAfterStore(form.fields, i, g.fields[i].value, name);
    if Trim(text) != "" {
      EmptyExactlyWhenBlank(Trim(text));
    }
  }

  lemma LookupsAfterFlag(form: Form, name: string, text: string, g: Form, other: string)
    requires SetForm(form, name, text) == Success(g) && other != name
    ensures TextOf(g.fields, other) == TextOf(form.fields, other) && EnvOf(g.fields, other) == EnvOf(form.fields, other)
  {
    var i := FieldIndex(form.fields, name);
    IndexAfterStore(form.fields, i, g.fields[i].value, other);
  }

  /** The variables an accepted `--env` entry stands for. */
  function EnvSent(name: string, text: string): Option<map<string, string>> {
    if name == "--env" && Trim(text) != "" && Parse(Trim(text)).Success? then Some(Parse(Trim(text)).value) else None
  }

  function TextSent(text: string): Option<string> {
    if Trim(text) == "" then None else Some(Trim(text))
  }

  lemma RequestAfterEntry(a: seq<Field>, b: seq<Field>, names: seq<string>, k: nat)
    requires |names| == 7 && TextOf(a, names[0]).Some? && TextOf(b, names[0]).Some?
    requires forall j :: 0 <= j < 7 && j != k ==>
         TextOf(b, names[j]) == TextOf(a, names[j]) && EnvOf(b, names[j]) == EnvOf(a, names[j])
    ensures k < 7 ==>
      RequestOf(b, names) == WithPart(RequestOf(a, names), k, TextOf(b, names[k]), EnvOf(b, names[k]))
    ensures k >= 7 ==> RequestOf(b, names) == RequestOf(a, names)
  {
  }

  lemma RequestPart(p: SessionParams, k: nat, t: Option<string>, e: Option<map<string, string>>,
                    t': Option<string>, e': Option<map<string, string>>)
    requires k < 7 ==> if k == 5 then e == e' else t == t'
    ensures WithPart(p, k, t, e) == WithPart(p, k, t', e')
  {
  }

  lemma EntryInRequest(form: Form, g: Form, name: string, text: string, names: seq<string>)
    requires SetForm(form, name, text) == Success(g)
    requires |names| == 7 && TextOf(form.fields, names[0]).Some? && TextOf(g.fields, names[0]).Some?
    requires forall j, k :: 0 <= j < k < 7 ==> names[j] != names[k]
    requires names[5] == "--env"
    requires name in names ==> !form.fields[FieldIndex(form.fields, name)].kind.FlagField?
    ensures RequestOf(g.fields, names)
         == WithPart(RequestOf(form.fields, names), Rank(name, names), TextSent(text), EnvSent(name, text))
  {
    var k := Rank(name, names);
    forall j | 0 <= j < 7 && j != k
      ensures TextOf(g.fields, names[j]) == TextOf(form.fields, names[j])
      ensures EnvOf(g.fields, names[j]) == EnvOf(form.fields, names[j])
    {
      LookupsAfterFlag(form, name, text, g, names[j]);
    }
    RequestAfterEntry(form.fields, g.fields, names, k);
    if k < 7 {
      LookupsAfterEntry(form, name, text, g);
      RequestPart(RequestOf(form.fields, names), k, TextOf(g.fields, name), EnvOf(g.fields, name),
        TextSent(text), EnvSent(name, text));
    }
  }

  /**
   An accepted entry reaches the request in its own part and nowhere else; a blank one
   removes it; the five flags reach nothing.
   */
  lemma EntryReachesItsField(catalog: Catalog, form: Form, name: string, text: string, g: Form)
    requires GoodCatalog(catalog) && GoodForm(catalog, form)
    requires ToParams(form).Success? && SetForm(form, name, text) == Success(g) && ToParams(g).Success?
    ensures ToParams(g).value
         == WithPart(ToParams(form).value, Rank(name, WIRED), TextSent(text), EnvSent(name, text))
  {
    LaunchKinds(catalog, form, FieldIndex(form.fields, name));
    WiredDiffer();
    EntryInRequest(form, g, name, text, WIRED);
  }

  lemma WiredDiffer()
    ensures forall j, k :: 0 <= j < k < 7 ==> WIRED[j] != WIRED[k]
    ensures WIRED[5] == "--env"
  {
    forall j, k | 0 <= j < k < 7
      ensures WIRED[j] != WIRED[k]
    {
      WiredPair(j, k);
    }
  }

  lemma WiredPair(j: nat, k: nat)
    requires j < k < |WIRED|
    ensures WIRED[j] != WIRED[k]
  {
  }
}
