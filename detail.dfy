/**
 * The Pokemon detail page: the English description, the ids of the
 * neighbouring records, the loading effect that fills the page's state
 * (`pokemon`, `species`, `isLoading`, `error`) and the order in which that
 * state decides what is shown.
 *
 * The two requests are parameters: `detail` is the outcome of the request
 * for `/pokemon/<id>`, and `speciesFor(url)` the outcome of the species
 * request, which can only be made with the url the detail record names.
 */
module Detail {
  import opened Wrappers
  import opened PokeApi
  import opened JsString

  const NoDescription: string := "No description available."
  const NotFoundMessage: string := "Pokemon not found"
  const FormFeed: char := '\U{C}'

  // ---------------------------------------------------------------- description

  /** `entries.find(entry => entry.language.name === 'en')`, as the index it finds. */
  function FirstEnglish(entries: seq<FlavorEntry>): (r: Option<nat>)
    ensures r.Some? ==> r.value < |entries| && entries[r.value].language == "en"
    ensures r.Some? ==> forall j :: 0 <= j < r.value ==> entries[j].language != "en"
    ensures r.None? ==> forall j :: 0 <= j < |entries| ==> entries[j].language != "en"
  {
    if entries == [] then None
    else if entries[0].language == "en" then Some(0)
    else
      match FirstEnglish(entries[1..])
      case None => None
      case Some(i) => Some(i + 1)
  }

  /**
   * `getEnglishFlavorText`: the text of the first English entry with every
   * form feed turned into a space, or the fixed fallback text when there is
   * no species or no English entry.
   */
  function EnglishFlavorText(species: Option<Species>): (r: string)
    ensures species.None? ==> r == NoDescription
    ensures species.Some? && FirstEnglish(species.value.flavorTextEntries).None? ==> r == NoDescription
    ensures species.Some? && FirstEnglish(species.value.flavorTextEntries).Some? ==>
      var t := species.value.flavorTextEntries[FirstEnglish(species.value.flavorTextEntries).value].text;
      |r| == |t| && forall k :: 0 <= k < |t| ==> r[k] == (if t[k] == FormFeed then ' ' else t[k])
    ensures forall k :: 0 <= k < |r| ==> r[k] != FormFeed
  {
    if species.None? then NoDescription
    else
      match FirstEnglish(species.value.flavorTextEntries)
      case None => NoDescription
      case Some(i) => ReplaceChar(species.value.flavorTextEntries[i].text, FormFeed, ' ')
  }

  // ---------------------------------------------------------------- neighbours

  /** `prevPokemonId`: the id before a loaded record's, when that id is above 1. */
  function PrevId(pokemon: Option<Pokemon>): (r: Option<int>)
    ensures r.Some? <==> pokemon.Some? && pokemon.value.id > 1
    ensures r.Some? ==> r.value >= 1 && r.value + 1 == pokemon.value.id
  {
    if pokemon.Some? && pokemon.value.id > 1 then Some(pokemon.value.id - 1) else None
  }

  /** `nextPokemonId`: the id after a loaded record's, with no upper bound. */
  function NextId(pokemon: Option<Pokemon>): (r: Option<int>)
    ensures r.Some? <==> pokemon.Some?
    ensures r.Some? ==> r.value == pokemon.value.id + 1
  {
    if pokemon.Some? then Some(pokemon.value.id + 1) else None
  }

  /** Going to the next record and then back returns to the same id. */
  lemma PrevOfNext(p: Pokemon, q: Pokemon)
    requires p.id >= 1 && q.id == NextId(Some(p)).value
    ensures PrevId(Some(q)) == Some(p.id)
  {
  }

  /** The first record has no previous record and record 2 as its next. */
  lemma FirstRecordNeighbours(p: Pokemon)
    requires p.id == 1
    ensures PrevId(Some(p)) == None && NextId(Some(p)) == Some(2)
  {
  }

  // ---------------------------------------------------------------- loading

  /** The outcome of the detail request: its parsed body, a response that is not ok, or a thrown error. */
  datatype DetailResponse = Ok(pokemon: Pokemon) | NotOk | Threw(message: string)

  /** The outcome of the species request: its parsed body or a thrown error (its `ok` is never read). */
  datatype SpeciesResponse = SpeciesOk(species: Species) | SpeciesThrew(message: string)

  /** One action of the loading effect: a state setter called, or a request issued. */
  datatype Step =
    | SetIsLoading(loading: bool)
    | RequestPokemon(id: string)
    | SetPokemon(pokemon: Pokemon)
    | RequestSpecies(url: string)
    | SetSpecies(species: Species)
    | SetError(message: string)

  /** The four state variables of the page. */
  datatype DetailState = DetailState(pokemon: Option<Pokemon>, species: Option<Species>,
                                     isLoading: bool, error: Option<string>)

  /** `useState(null)`, `useState(null)`, `useState(true)`, `useState(null)`. */
  const InitialState := DetailState(None, None, true, None)

  /** What one step does to the state; issuing a request changes no state. */
  function Apply(s: DetailState, step: Step): DetailState
  {
    match step
    case SetIsLoading(b) => s.(isLoading := b)
    case RequestPokemon(_) => s
    case SetPokemon(p) => s.(pokemon := Some(p))
    case RequestSpecies(_) => s
    case SetSpecies(sp) => s.(species := Some(sp))
    case SetError(m) => s.(error := Some(m))
  }

  /** The state after a sequence of steps, taken in order. */
  function Run(s: DetailState, steps: seq<Step>): DetailState
    decreases |steps|
  {
    if steps == [] then s else Run(Apply(s, steps[0]), steps[1..])
  }

  /**
   * The steps of `fetchPokemonDetails` for route `id`: loading on, the detail
   * request, and then either the record and the species request it enables,
   * or the error; every path ends with loading off.
   */
  function LoadSteps(id: string, detail: DetailResponse, speciesFor: string -> SpeciesResponse): (r: seq<Step>)
    ensures |r| >= 4 && r[0] == SetIsLoading(true) && r[1] == RequestPokemon(id)
    ensures r[|r| - 1] == SetIsLoading(false)
  {
    [SetIsLoading(true), RequestPokemon(id)] +
    match detail
    case NotOk => [SetError(NotFoundMessage), SetIsLoading(false)]
    case Threw(m) => [SetError(m), SetIsLoading(false)]
    case Ok(p) =>
      [SetPokemon(p), RequestSpecies(p.speciesUrl)] +
      match speciesFor(p.speciesUrl)
      case SpeciesOk(sp) => [SetSpecies(sp), SetIsLoading(false)]
      case SpeciesThrew(m) => [SetError(m), SetIsLoading(false)]
  }

  /** Loading is switched on by the first step and off by the last, and by no step in between. */
  lemma LoadingSetOnlyAtEnds(id: string, detail: DetailResponse, speciesFor: string -> SpeciesResponse, j: int)
    requires 1 <= j < |LoadSteps(id, detail, speciesFor)| - 1
    ensures !LoadSteps(id, detail, speciesFor)[j].SetIsLoading?
  {
  }

  /** The state each outcome of the requests leaves behind. */
  lemma {:induction false} LoadFinalState(s: DetailState, id: string, detail: DetailResponse,
                                          speciesFor: string -> SpeciesResponse)
    ensures var t := Run(s, LoadSteps(id, detail, speciesFor));
      !t.isLoading &&
      (detail.NotOk? ==> t == s.(isLoading := false, error := Some(NotFoundMessage))) &&
      (detail.Threw? ==> t == s.(isLoading := false, error := Some(detail.message))) &&
      (detail.Ok? && speciesFor(detail.pokemon.speciesUrl).SpeciesOk? ==>
        t == s.(isLoading := false, pokemon := Some(detail.pokemon),
                species := Some(speciesFor(detail.pokemon.speciesUrl).species))) &&
      (detail.Ok? && speciesFor(detail.pokemon.speciesUrl).SpeciesThrew? ==>
        t == s.(isLoading := false, pokemon := Some(detail.pokemon),
                error := Some(speciesFor(detail.pokemon.speciesUrl).message)))
  {
    var steps := LoadSteps(id, detail, speciesFor);
    var s1 := Apply(s, SetIsLoading(true));
    assert Run(s, steps) == Run(s1, steps[1..]);
    assert Run(s1, steps[1..]) == Run(s1, steps[2..]);
    match detail
    case NotOk =>
      var s2 := s1.(error := Some(NotFoundMessage));
      assert Run(s1, steps[2..]) == Run(s2, steps[3..]);
      assert Run(s2, steps[3..]) == Run(s2.(isLoading := false), []);
    case Threw(m) =>
      var s2 := s1.(error := Some(m));
      assert Run(s1, steps[2..]) == Run(s2, steps[3..]);
      assert Run(s2, steps[3..]) == Run(s2.(isLoading := false), []);
    case Ok(p) =>
      var s2 := s1.(pokemon := Some(p));
      assert Run(s1, steps[2..]) == Run(s2, steps[3..]);
      assert Run(s2, steps[3..]) == Run(s2, steps[4..]);
      match speciesFor(p.speciesUrl)
      case SpeciesOk(sp) =>
        var s3 := s2.(species := Some(sp));
        assert Run(s2, steps[4..]) == Run(s3, steps[5..]);
        assert Run(s3, steps[5..]) == Run(s3.(isLoading := false), []);
      case SpeciesThrew(m) =>
        var s3 := s2.(error := Some(m));
        assert Run(s2, steps[4..]) == Run(s3, steps[5..]);
        assert Run(s3, steps[5..]) == Run(s3.(isLoading := false), []);
  }

  /** The species request is issued only with the species url of a record already stored. */
  lemma SpeciesRequestFollowsRecord(id: string, detail: DetailResponse, speciesFor: string -> SpeciesResponse, k: int)
    requires 0 <= k < |LoadSteps(id, detail, speciesFor)|
    requires LoadSteps(id, detail, speciesFor)[k].RequestSpecies?
    ensures detail.Ok?
    ensures exists j :: 0 <= j < k && LoadSteps(id, detail, speciesFor)[j] == SetPokemon(detail.pokemon)
    ensures LoadSteps(id, detail, speciesFor)[k].url == detail.pokemon.speciesUrl
  {
    assert LoadSteps(id, detail, speciesFor)[2] == SetPokemon(detail.pokemon);
  }

  /** The species is stored only after the record is. */
  lemma SpeciesSetAfterRecord(id: string, detail: DetailResponse, speciesFor: string -> SpeciesResponse, k: int)
    requires 0 <= k < |LoadSteps(id, detail, speciesFor)|
    requires LoadSteps(id, detail, speciesFor)[k].SetSpecies?
    ensures detail.Ok?
    ensures exists j :: 0 <= j < k && LoadSteps(id, detail, speciesFor)[j] == SetPokemon(detail.pokemon)
  {
    assert LoadSteps(id, detail, speciesFor)[2] == SetPokemon(detail.pokemon);
  }

  /** A failed detail request stores neither record nor species and issues no species request. */
  lemma FailedDetailStopsEarly(id: string, detail: DetailResponse, speciesFor: string -> SpeciesResponse)
    requires !detail.Ok?
    ensures forall k :: 0 <= k < |LoadSteps(id, detail, speciesFor)| ==>
      var step := LoadSteps(id, detail, speciesFor)[k];
      !step.RequestSpecies? && !step.SetPokemon? && !step.SetSpecies?
  {
  }

  // ---------------------------------------------------------------- rendering

  /** What the page shows. */
  datatype View =
    | LoadingView
    | ErrorView(message: string)
    | NotFoundView
    | ContentView(pokemon: Pokemon, description: string, prevId: Option<int>, nextId: Option<int>)

  /**
   * The checks before the page's markup, in order: loading, then a truthy
   * (non-empty) error message, then a missing record, then the content.
   */
  function Render(s: DetailState): (v: View)
    ensures s.isLoading ==> v == LoadingView
    ensures !s.isLoading && s.error.Some? && s.error.value != "" ==> v == ErrorView(s.error.value)
    ensures !s.isLoading && !(s.error.Some? && s.error.value != "") && s.pokemon.None? ==> v == NotFoundView
    ensures !s.isLoading && !(s.error.Some? && s.error.value != "") && s.pokemon.Some? ==>
      v == ContentView(s.pokemon.value, EnglishFlavorText(s.species), PrevId(s.pokemon), NextId(s.pokemon))
  {
    if s.isLoading then LoadingView
    else if s.error.Some? && s.error.value != "" then ErrorView(s.error.value)
    else if s.pokemon.None? then NotFoundView
    else ContentView(s.pokemon.value, EnglishFlavorText(s.species), PrevId(s.pokemon), NextId(s.pokemon))
  }

  /** Steps that call no `setIsLoading` leave `isLoading` as it was. */
  lemma {:induction false} RunKeepsLoading(s: DetailState, steps: seq<Step>)
    requires forall j :: 0 <= j < |steps| ==> !steps[j].SetIsLoading?
    ensures Run(s, steps).isLoading == s.isLoading
    decreases |steps|
  {
    if steps != [] {
      RunKeepsLoading(Apply(s, steps[0]), steps[1..]);
    }
  }

  /** Every state strictly inside a load, after its first step and before its last, shows the loading view. */
  lemma {:induction false} LoadingThroughout(s: DetailState, id: string, detail: DetailResponse,
                                             speciesFor: string -> SpeciesResponse, k: int)
    requires 1 <= k < |LoadSteps(id, detail, speciesFor)|
    ensures Render(Run(s, LoadSteps(id, detail, speciesFor)[..k])) == LoadingView
  {
    var steps := LoadSteps(id, detail, speciesFor);
    var p := steps[..k];
    assert p[1..] == steps[1..k];
    forall j | 0 <= j < |p[1..]| ensures !p[1..][j].SetIsLoading? {
      LoadingSetOnlyAtEnds(id, detail, speciesFor, j + 1);
    }
    RunKeepsLoading(Apply(s, steps[0]), p[1..]);
  }

  /** What the first load of the page shows, for each outcome of its requests. */
  lemma FirstLoadView(id: string, detail: DetailResponse, speciesFor: string -> SpeciesResponse)
    ensures var v := Render(Run(InitialState, LoadSteps(id, detail, speciesFor)));
      (detail.NotOk? ==> v == ErrorView(NotFoundMessage)) &&
      (detail.Threw? && detail.message != "" ==> v == ErrorView(detail.message)) &&
      (detail.Threw? && detail.message == "" ==> v == NotFoundView) &&
      (detail.Ok? && speciesFor(detail.pokemon.speciesUrl).SpeciesOk? ==>
        v == ContentView(detail.pokemon, EnglishFlavorText(Some(speciesFor(detail.pokemon.speciesUrl).species)),
                         PrevId(Some(detail.pokemon)), NextId(Some(detail.pokemon)))) &&
      (detail.Ok? && speciesFor(detail.pokemon.speciesUrl).SpeciesThrew? ==>
        var m := speciesFor(detail.pokemon.speciesUrl).message;
        v == if m != "" then ErrorView(m)
             else ContentView(detail.pokemon, NoDescription, PrevId(Some(detail.pokemon)), NextId(Some(detail.pokemon))))
  {
    LoadFinalState(InitialState, id, detail, speciesFor);
  }

  /**
   * The effect never clears `error`: once an error is shown, a later load whose
   * requests both succeed still shows that error rather than the new record.
   */
  lemma ErrorSurvivesLaterLoad(s: DetailState, id: string, detail: DetailResponse, speciesFor: string -> SpeciesResponse)
    requires s.error.Some? && s.error.value != ""
    requires detail.Ok? && speciesFor(detail.pokemon.speciesUrl).SpeciesOk?
    ensures Render(Run(s, LoadSteps(id, detail, speciesFor))) == ErrorView(s.error.value)
  {
    LoadFinalState(s, id, detail, speciesFor);
  }

  // ---------------------------------------------------------------- the page

  class DetailPage {
    var pokemon: Option<Pokemon>
    var species: Option<Species>
    var isLoading: bool
    var error: Option<string>
    /** Every setter call and request so far, in order. */
    ghost var log: seq<Step>

    function State(): DetailState
      reads this
    {
      DetailState(pokemon, species, isLoading, error)
    }

    constructor ()
      ensures State() == InitialState && log == []
    {
      pokemon, species, isLoading, error := None, None, true, None;
      log := [];
    }

    method SetIsLoadingState(b: bool)
      modifies this
      ensures State() == Apply(old(State()), SetIsLoading(b)) && log == old(log) + [SetIsLoading(b)]
    {
      isLoading := b;
      log := log + [SetIsLoading(b)];
    }

    method SetPokemonState(p: Pokemon)
      modifies this
      ensures State() == Apply(old(State()), SetPokemon(p)) && log == old(log) + [SetPokemon(p)]
    {
      pokemon := Some(p);
      log := log + [SetPokemon(p)];
    }

    method SetSpeciesState(sp: Species)
      modifies this
      ensures State() == Apply(old(State()), SetSpecies(sp)) && log == old(log) + [SetSpecies(sp)]
    {
      species := Some(sp);
      log := log + [SetSpecies(sp)];
    }

    method SetErrorState(m: string)
      modifies this
      ensures State() == Apply(old(State()), SetError(m)) && log == old(log) + [SetError(m)]
    {
      error := Some(m);
      log := log + [SetError(m)];
    }

    /**
     * The effect's `fetchPokemonDetails` for route `id`: the state and the
     * log advance exactly by `LoadSteps`.
     */
    method FetchPokemonDetails(id: string, detail: DetailResponse, speciesFor: string -> SpeciesResponse)
      modifies this
      ensures State() == Run(old(State()), LoadSteps(id, detail, speciesFor))
      ensures log == old(log) + LoadSteps(id, detail, speciesFor)
    {
      LoadFinalState(State(), id, detail, speciesFor);
      ghost var done: seq<Step> := [SetIsLoading(true), RequestPokemon(id)];

      SetIsLoadingState(true);
      log := log + [RequestPokemon(id)];

      match detail {
        case NotOk =>
          SetErrorState(NotFoundMessage);
          done := done + [SetError(NotFoundMessage)];
        case Threw(m) =>
          SetErrorState(m);
          done := done + [SetError(m)];
        case Ok(p) =>
          SetPokemonState(p);
          log := log + [RequestSpecies(p.speciesUrl)];
          done := done + [SetPokemon(p), RequestSpecies(p.speciesUrl)];
          match speciesFor(p.speciesUrl) {
            case SpeciesOk(sp) =>
              SetSpeciesState(sp);
              done := done + [SetSpecies(sp)];
            case SpeciesThrew(m) =>
              SetErrorState(m);
              done := done + [SetError(m)];
          }
      }

      SetIsLoadingState(false);
      done := done + [SetIsLoading(false)];
      assert log == old(log) + done;
      assert done == LoadSteps(id, detail, speciesFor);
    }
  }

}
