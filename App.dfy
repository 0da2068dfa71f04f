/** The top-level client: which of its three views is on screen, the
    submission of a property and what its outcome does to the state, and the
    rules for rendering a received deal (rank badge, pipeline stage, analysis
    cards, matched buyers). */
module App {
  import opened JsText
  import DealPipeline

  // ---------------------------------------------------------------------------
  // What the server sends back
  // ---------------------------------------------------------------------------

  datatype Buyer = Buyer(buyerId: string, name: string, email: string, score: int)

  /** A value of the `analysis` object. */
  datatype AnalysisValue = NumberValue(n: int) | TextValue(s: string) | BoolValue(b: bool) | NullValue

  /** The decoded body of a successful response; `analysis` holds its entries
      in `Object.entries` order. */
  datatype Deal = Deal(
    dealId: string,
    rank: Nullable<string>,
    analysis: Nullable<seq<(string, AnalysisValue)>>,
    matchedBuyers: Nullable<seq<Buyer>>)

  /** How the request ended: a decoded deal, a non-OK response with its body
      text, or an exception (network failure, undecodable body) with its message. */
  datatype Outcome = Ok(deal: Deal) | HttpError(body: string) | Thrown(message: string)

  // ---------------------------------------------------------------------------
  // State and transitions
  // ---------------------------------------------------------------------------

  datatype AppState = AppState(
    showForm: bool, result: Nullable<Deal>, stage: string, loading: bool, error: string)

  const FallbackError := "Failed to submit property"

  /** The state on first render: the Hero, nothing pending, no error, and the
      pipeline at its first step. */
  function InitialState(): (s: AppState)
    ensures ViewOf(s) == HeroView && StageIsDerived(s)
    ensures !s.loading && s.error == "" && DealPipeline.CurrentIndex(s.stage) == 0
  {
    AppState(false, Null, "submitted", false, "")
  }

  /** `data.rank` is truthy: present and not the empty string. */
  predicate Truthy(rank: Nullable<string>) {
    rank.NonNull? && rank.value != ""
  }

  /** The stage set from a received deal: matched when it is ranked. */
  function StageFor(rank: Nullable<string>): (stage: string)
    ensures stage == "matched" <==> Truthy(rank)
    ensures stage == "submitted" <==> !Truthy(rank)
    ensures DealPipeline.CurrentIndex(stage) == if Truthy(rank) then 1 else 0
  {
    if Truthy(rank) then "matched" else "submitted"
  }

  /** `e.message || 'Failed to submit property'` for a failed outcome; a non-OK
      response throws an `Error` whose message is the body text. */
  function ErrorMessage(o: Outcome): (msg: string)
    requires !o.Ok?
    ensures msg != ""
    ensures o.HttpError? && o.body != "" ==> msg == o.body
    ensures o.Thrown? && o.message != "" ==> msg == o.message
    ensures (o.HttpError? && o.body == "") || (o.Thrown? && o.message == "") ==> msg == FallbackError
  {
    var text := if o.HttpError? then o.body else o.message;
    if text != "" then text else FallbackError
  }

  /** The Hero's start button: the form is shown unless a result is on screen;
      nothing else changes. */
  function Started(s: AppState): (r: AppState)
    ensures ViewOf(r) == (if s.result.Null? then FormView else ResultView)
    ensures r.showForm
    ensures r.result == s.result && r.stage == s.stage && r.loading == s.loading && r.error == s.error
  {
    s.(showForm := true)
  }

  /** `submitProperty` up to its first `await`: busy, error cleared, and the
      same view, result and stage. */
  function Submitting(s: AppState): (r: AppState)
    ensures r.loading && r.error == ""
    ensures ViewOf(r) == ViewOf(s) && r.showForm == s.showForm && r.result == s.result && r.stage == s.stage
  {
    s.(loading := true, error := "")
  }

  /** The rest of `submitProperty`, once the request has ended with `o`. */
  function Settled(s: AppState, o: Outcome): (r: AppState)
    ensures !r.loading && r.showForm == s.showForm
    ensures o.Ok? ==> r.result == NonNull(o.deal) && r.error == s.error
    ensures o.Ok? ==> (r.stage == "matched" <==> Truthy(o.deal.rank))
    ensures o.Ok? ==> r.stage == StageFor(o.deal.rank)
    ensures !o.Ok? ==> r.result == s.result && r.stage == s.stage
    ensures !o.Ok? ==> r.error == ErrorMessage(o) && r.error != ""
  {
    match o
    case Ok(deal) => s.(result := NonNull(deal), stage := StageFor(deal.rank), loading := false)
    case _ => s.(error := ErrorMessage(o), loading := false)
  }

  /** The "Submit Another" button: back to an empty form; the stage, the
      pending flag and the error are left as they were. */
  function SubmittedAnother(s: AppState): (r: AppState)
    ensures ViewOf(r) == FormView && r.result.Null?
    ensures r.stage == s.stage && r.loading == s.loading && r.error == s.error
  {
    s.(result := Null, showForm := true)
  }

  /** Every stage the client ever holds is one it derives itself. */
  predicate StageIsDerived(s: AppState) {
    s.stage == "submitted" || s.stage == "matched"
  }

  // ---------------------------------------------------------------------------
  // Views
  // ---------------------------------------------------------------------------

  datatype View = HeroView | FormView | ResultView

  predicate ShowsHero(s: AppState) { !s.showForm && s.result.Null? }
  predicate ShowsForm(s: AppState) { s.showForm && s.result.Null? }
  predicate ShowsResult(s: AppState) { s.result.NonNull? }

  /** The view on screen; exactly one of the three render conditions holds. */
  function ViewOf(s: AppState): (v: View)
    ensures v == HeroView <==> ShowsHero(s)
    ensures v == FormView <==> ShowsForm(s)
    ensures v == ResultView <==> ShowsResult(s)
  {
    if s.result.NonNull? then ResultView
    else if s.showForm then FormView
    else HeroView
  }

  /** The form view's error line: shown exactly when the form is on screen and
      the error is not empty. */
  function ShowsError(s: AppState): (b: bool)
    ensures b <==> ViewOf(s) == FormView && s.error != ""
  {
    ShowsForm(s) && s.error != ""
  }

  /** The form view's "Analyzing" line: shown exactly when the form is on
      screen and a submission is pending. */
  function ShowsBusy(s: AppState): (b: bool)
    ensures b <==> ViewOf(s) == FormView && s.loading
  {
    ShowsForm(s) && s.loading
  }

  // ---------------------------------------------------------------------------
  // Rendering a deal
  // ---------------------------------------------------------------------------

  datatype Badge = Emerald | Blue | Amber | Slate

  /** The colour of the rank badge. */
  function RankBadge(rank: Nullable<string>): (b: Badge)
    ensures b == Emerald <==> rank == NonNull("A")
    ensures b == Blue <==> rank == NonNull("B")
    ensures b == Amber <==> rank == NonNull("C")
    ensures b == Slate <==> rank !in {NonNull("A"), NonNull("B"), NonNull("C")}
  {
    if rank == NonNull("A") then Emerald
    else if rank == NonNull("B") then Blue
    else if rank == NonNull("C") then Amber
    else Slate
  }

  datatype BuyerRow = BuyerRow(key: string, name: string, email: string, scoreText: string)

  datatype BuyersPanel = NoBuyersYet | BuyerList(rows: seq<BuyerRow>)

  /** One list item: name, email and `Score ${score.toFixed(1)}`. */
  function RowOf(b: Buyer): (row: BuyerRow)
    ensures row.key == b.buyerId && row.name == b.name && row.email == b.email
    ensures |row.scoreText| >= 9 && row.scoreText[..6] == "Score "
    ensures row.scoreText[|row.scoreText| - 2..] == ".0"
    ensures row.scoreText[6..|row.scoreText| - 2] == IntText(b.score)
    ensures IntegerNumber(row.scoreText[6..|row.scoreText| - 2]) == Finite(b.score)
  {
    var fixed := FixedOne(b.score);
    var text := "Score " + fixed;
    assert text[6..|text| - 2] == fixed[..|fixed| - 2];
    assert text[|text| - 2..] == fixed[|fixed| - 2..];
    BuyerRow(b.buyerId, b.name, b.email, text)
  }

  /** `matched_buyers?.length ? <list> : <no buyers yet>`. */
  function BuyersPanelOf(buyers: Nullable<seq<Buyer>>): (p: BuyersPanel)
    ensures p.NoBuyersYet? <==> buyers.Null? || |buyers.value| == 0
    ensures p.BuyerList? ==> |p.rows| == |buyers.value|
    ensures p.BuyerList? ==> forall i :: 0 <= i < |p.rows| ==> p.rows[i] == RowOf(buyers.value[i])
  {
    if buyers.NonNull? && |buyers.value| > 0 then
      BuyerList(seq(|buyers.value|, i requires 0 <= i < |buyers.value| => RowOf(buyers.value[i])))
    else
      NoBuyersYet
  }

  /** `k.replaceAll('_', ' ')`. */
  function Label(key: string): (l: string)
    ensures |l| == |key| && '_' !in l
    ensures forall i :: 0 <= i < |key| ==> l[i] == (if key[i] == '_' then ' ' else key[i])
  {
    ReplaceChar(key, '_', ' ')
  }

  /** The text of one analysis value: a number under a key containing "pct"
      is `${v}%`, any other number `$${v.toLocaleString()}`, anything else `String(v)`. */
  function FormatValue(key: string, v: AnalysisValue): (text: string)
    ensures v.NumberValue? && Includes(key, "pct") ==>
      |text| >= 2 && text[|text| - 1] == '%' && text[..|text| - 1] == IntText(v.n) &&
      IntegerNumber(text[..|text| - 1]) == Finite(v.n)
    ensures v.NumberValue? && !Includes(key, "pct") ==>
      |text| >= 2 && text[0] == '$' && (text[1] == '-' <==> v.n < 0) &&
      GroupedShape(text[(if v.n < 0 then 2 else 1)..]) &&
      StripCommas(text[1..]) == IntText(v.n) &&
      IntegerNumber(StripCommas(text[1..])) == Finite(v.n)
    ensures v.TextValue? ==> text == v.s
    ensures v.BoolValue? ==> text == (if v.b then "true" else "false")
    ensures v.NullValue? ==> text == "null"
  {
    match v
    case NumberValue(n) =>
      if Includes(key, "pct") then
        IntTextRoundTrip(n);
        var t := IntText(n) + "%";
        assert t[..|t| - 1] == IntText(n);
        t
      else
        LocaleTextRoundTrip(n);
        var l := LocaleText(n);
        var t := "$" + l;
        assert t[1..] == l;
        assert t[(if n < 0 then 2 else 1)..] == (if n < 0 then l[1..] else l);
        t
    case TextValue(s) => s
    case BoolValue(b) => if b then "true" else "false"
    case NullValue => "null"
  }

  datatype Card = Card(caption: string, text: string)

  /** `Object.entries(result.analysis || {})`, one card per entry, in order. */
  function AnalysisCards(analysis: Nullable<seq<(string, AnalysisValue)>>): (cards: seq<Card>)
    ensures analysis.Null? ==> cards == []
    ensures analysis.NonNull? ==> |cards| == |analysis.value|
    ensures analysis.NonNull? ==> forall i :: 0 <= i < |cards| ==>
      cards[i] == Card(Label(analysis.value[i].0), FormatValue(analysis.value[i].0, analysis.value[i].1))
  {
    match analysis
    case Null => []
    case NonNull(entries) =>
      seq(|entries|, i requires 0 <= i < |entries| => Card(Label(entries[i].0), FormatValue(entries[i].0, entries[i].1)))
  }

  // ---------------------------------------------------------------------------
  // Properties of the transitions
  // ---------------------------------------------------------------------------

  /** The first screen is the Hero; its button leads to the form. */
  lemma StartShowsForm()
    ensures ViewOf(InitialState()) == HeroView
    ensures ViewOf(Started(InitialState())) == FormView
  {
  }

  /** Every submission starts busy with the error cleared and ends not busy,
      whatever the outcome; it ends with an error exactly when it failed. */
  lemma SubmissionLifecycle(s: AppState, o: Outcome)
    ensures var b := Submitting(s); b.loading && b.error == ""
    ensures var e := Settled(Submitting(s), o); !e.loading && (e.error == "" <==> o.Ok?)
  {
  }

  /** A deal that arrives replaces the result and switches to the result view,
      where the pipeline lights "submitted", and "matched" too when the deal is ranked. */
  lemma SuccessShowsDeal(s: AppState, deal: Deal)
    ensures var e := Settled(Submitting(s), Ok(deal));
      ViewOf(e) == ResultView && e.result == NonNull(deal) &&
      DealPipeline.Highlights(e.stage)[0] &&
      (DealPipeline.Highlights(e.stage)[1] <==> Truthy(deal.rank)) &&
      !DealPipeline.Highlights(e.stage)[2] && !DealPipeline.Highlights(e.stage)[3]
  {
  }

  /** A failure leaves the result, the stage and the view as they were; from
      the form it shows the error line and no longer the busy line. */
  lemma FailureKeepsView(s: AppState, o: Outcome)
    requires !o.Ok?
    ensures var e := Settled(Submitting(s), o);
      e.result == s.result && e.stage == s.stage && ViewOf(e) == ViewOf(s)
    ensures ShowsForm(s) ==> ShowsError(Settled(Submitting(s), o)) && !ShowsBusy(Settled(Submitting(s), o))
  {
  }

  /** Once a deal has been shown, "Submit Another" gives a clean form view: no
      busy line, no error line, and the last deal's stage kept. */
  lemma SubmitAnotherShowsForm(s: AppState, deal: Deal)
    ensures var a := SubmittedAnother(Settled(Submitting(s), Ok(deal)));
      ViewOf(a) == FormView && !ShowsBusy(a) && !ShowsError(a) && a.stage == StageFor(deal.rank)
  {
  }

  /** The client only ever holds "submitted" or "matched", so the pipeline never
      shows "reviewed" or "closed" reached. */
  lemma StageStaysDerived(s: AppState, o: Outcome)
    requires StageIsDerived(s)
    ensures StageIsDerived(Started(s)) && StageIsDerived(Submitting(s))
    ensures StageIsDerived(Settled(s, o)) && StageIsDerived(SubmittedAnother(s))
    ensures DealPipeline.Highlights(s.stage)[0]
    ensures !DealPipeline.Highlights(s.stage)[2] && !DealPipeline.Highlights(s.stage)[3]
  {
  }

  /** Nothing in the transitions ties a response to the submission that asked
      for it: a deal applied after "Submit Another" still replaces the form with
      the result. The rendered app does not reach this order of events, since the
      form's button is disabled while a request is pending and "Submit Another"
      is only on the result view. */
  lemma LateResponseIsApplied(s: AppState, deal: Deal)
    ensures ViewOf(SubmittedAnother(s)) == FormView
    ensures ViewOf(Settled(SubmittedAnother(s), Ok(deal))) == ResultView
  {
  }

  /** A ranked deal with an empty buyer list: stage "matched", a blue badge and
      the "no buyers yet" message; `mao` shows as currency, `discount_pct` as a percentage. */
  lemma ExampleSuccess(s: AppState)
    ensures var deal := Deal("d1", NonNull("B"),
        NonNull([("mao", NumberValue(120000)), ("discount_pct", NumberValue(20))]), NonNull([]));
      var e := Settled(Submitting(s), Ok(deal));
      var cards := AnalysisCards(deal.analysis);
      e.stage == "matched" && RankBadge(deal.rank) == Blue &&
      BuyersPanelOf(deal.matchedBuyers) == NoBuyersYet &&
      |cards| == 2 && cards[0] == Card("mao", "$120,000") && cards[1] == Card("discount pct", "20%")
  {
    ExampleValues();
    ExampleLabels();
  }

  /** `mao: 120000` renders as "$120,000" and `discount_pct: 20` as "20%". */
  lemma ExampleValues()
    ensures FormatValue("mao", NumberValue(120000)) == "$120,000"
    ensures FormatValue("discount_pct", NumberValue(20)) == "20%"
  {
    ExampleCurrency();
    ExamplePercent();
  }

  lemma ExampleCurrency()
    ensures FormatValue("mao", NumberValue(120000)) == "$" + LocaleText(120000)
    ensures LocaleText(120000) == "120,000"
  {
    assert !OccursAt("mao", "pct", 0) by { assert "mao"[0..3][0] != "pct"[0]; }
    assert !Includes("mao", "pct");
    assert Grouped(120) == "120";
    assert Grouped(120000) == "120,000";
  }

  lemma ExamplePercent()
    ensures FormatValue("discount_pct", NumberValue(20)) == IntText(20) + "%"
    ensures IntText(20) == "20"
  {
    assert OccursAt("discount_pct", "pct", 9);
    assert NatText(20) == "20";
  }

  /** Underscores in keys become spaces. */
  lemma ExampleLabels()
    ensures Label("discount_pct") == "discount pct" && Label("mao") == "mao"
  {
  }

  /** A 500 response with body "internal error" ends with that error, not
      busy and with no deal. */
  lemma ExampleFailure()
    ensures var e := Settled(Submitting(Started(InitialState())), HttpError("internal error"));
      e.error == "internal error" && !e.loading && e.result == Null && ViewOf(e) == FormView
  {
  }

  // ---------------------------------------------------------------------------
  // The component
  // ---------------------------------------------------------------------------

  /** The component's five pieces of state, updated in place by its handlers. */
  class AppComponent {
    var showForm: bool
    var result: Nullable<Deal>
    var stage: string
    var loading: bool
    var error: string

    function State(): AppState
      reads this
    {
      AppState(showForm, result, stage, loading, error)
    }

    predicate Valid()
      reads this
    {
      StageIsDerived(State())
    }

    constructor ()
      ensures State() == InitialState() && Valid()
    {
      showForm := false;
      result := Null;
      stage := "submitted";
      loading := false;
      error := "";
    }

    /** The Hero's `onStart`. */
    method HandleStart()
      requires Valid()
      modifies this
      ensures State() == Started(old(State())) && Valid()
    {
      showForm := true;
    }

    /** `submitProperty` up to its `await`. */
    method SubmitBegin()
      requires Valid()
      modifies this
      ensures State() == Submitting(old(State())) && Valid()
    {
      loading := true;
      error := "";
    }

    /** The rest of `submitProperty`: the `try` body after the response, its
        `catch` and its `finally`. */
    method SubmitSettle(outcome: Outcome)
      requires Valid()
      modifies this
      ensures State() == Settled(old(State()), outcome) && Valid()
    {
      match outcome {
        case Ok(deal) =>
          result := NonNull(deal);
          stage := if Truthy(deal.rank) then "matched" else "submitted";
        case HttpError(body) =>
          error := if body != "" then body else FallbackError;
        case Thrown(message) =>
          error := if message != "" then message else FallbackError;
      }
      loading := false;
    }

    /** "Submit Another". */
    method HandleSubmitAnother()
      requires Valid()
      modifies this
      ensures State() == SubmittedAnother(old(State())) && Valid()
    {
      result := Null;
      showForm := true;
    }
  }
}
