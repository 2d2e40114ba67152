/**
  Fitting a request's token limits and thinking budget into the model's context
  window.  A token field that is absent or null is None; numbers are reals, so
  that fractional values truncate as `int` does.
*/
module Clamp {
  import opened Prelude

  /** The thinking block: only an enabled one has a budget that matters. */
  datatype Budget = Finite(tokens: real) | Unusable          // NaN, infinite, missing or not a number
  datatype Thinking = Disabled | Enabled(budget: Budget)

  datatype Request = Request(maxTokens: Option<real>, maxCompletion: Option<real>, thinking: Thinking)

  const MARGIN := 1024
  const MIN_BUDGET := 1024

  /** `int(x)` */
  function Trunc(x: real): int { if x >= 0.0 then x.Floor else -((-x).Floor) }

  function Min(a: real, b: real): real { if b < a then b else a }

  function Max(a: real, b: real): real { if b > a then b else a }

  /** A token count, 0 when there is none. */
  function OrZero(x: Option<real>): real { if x.Some? then x.value else 0.0 }

  /** The model's window: its context window, else its output limit. */
  function Window(contextWindow: Option<real>, infoMax: Option<real>): Option<real> {
    if OrZero(contextWindow) != 0.0 then contextWindow else infoMax
  }

  /** The prompt's size, estimated at four characters a token. */
  function Prompt(chars: nat): nat { if chars / 4 > 1 then chars / 4 else 1 }

  /** Tokens left for output; None when the request is left alone. */
  function Available(contextWindow: Option<real>, infoMax: Option<real>, chars: nat): (a: Option<int>)
    ensures a.None? <==> Window(contextWindow, infoMax).None?
                         || Window(contextWindow, infoMax).value < (Prompt(chars) + MARGIN + 1) as real
    ensures a.Some? ==> var rest := Window(contextWindow, infoMax).value - (Prompt(chars) + MARGIN) as real;
                        a.value as real <= rest < (a.value + 1) as real
  {
    var window := Window(contextWindow, infoMax);
    if window.None? || window.value < 1.0 then None
    else
      var available := Trunc(window.value) - Prompt(chars) - MARGIN;
      if available < 1 then None else Some(available)
  }

  // ----- one pass, as a function ------------------------------------------

  /** The output limit the budget is measured against: the first positive one, or one made up. */
  function Requested(r: Request, available: int, budget: int): real {
    if OrZero(r.maxTokens) > 0.0 then r.maxTokens.value
    else if OrZero(r.maxCompletion) > 0.0 then r.maxCompletion.value
    else Min(available as real, (budget + 1) as real)
  }

  /** The thinking block and `max_tokens` fitted to each other, and the budget if it was reduced. */
  function FitThinking(r: Request, available: int): (Request, real) {
    match r.thinking
    case Disabled => (r, 0.0)
    case Enabled(Unusable) => (r.(thinking := Disabled), 0.0)
    case Enabled(Finite(tokens)) =>
      var budget := Trunc(tokens);
      if budget < MIN_BUDGET then (r.(thinking := Disabled), 0.0)
      else
        var requested := Requested(r, available, budget);
        var created := OrZero(r.maxTokens) <= 0.0;
        var limit := Min(available as real, requested);
        var reduced := Max(MIN_BUDGET as real, limit - 1.0);
        if budget as real < limit then (r.(maxTokens := Some(requested)), 0.0)
        else if reduced >= limit then
          (r.(thinking := Disabled, maxTokens := if created then None else r.maxTokens), 0.0)
        else (r.(maxTokens := Some(requested), thinking := Enabled(Finite(reduced))), reduced)
  }

  /** A token field cut to at most `most`. */
  function Cut(field: Option<real>, most: real, to: real): Option<real> {
    if field.Some? && field.value > most then Some(to) else field
  }

  /** The request before the provider's own output cap. */
  function FitWindow(r: Request, available: int): Request {
    var (fitted, reduced) := FitThinking(r, available);
    var to := Max(if reduced > 0.0 then reduced + 1.0 else 1.0, available as real);
    fitted.(maxTokens := Cut(fitted.maxTokens, available as real, to),
            maxCompletion := Cut(fitted.maxCompletion, available as real, to))
  }

  /** The provider's cap, when the model table has a positive one; else what `max_tokens` asks for. */
  function CapOf(modelCap: Option<real>, r: Request): Option<int> {
    if modelCap.Some? && modelCap.value > 0.0 then Some(Trunc(modelCap.value))
    else if OrZero(r.maxTokens) > 0.0 then Some(Trunc(r.maxTokens.value))
    else None
  }

  function FitCap(r: Request, cap: Option<int>): Request {
    if cap.None? then r
    else r.(maxTokens := Cut(r.maxTokens, cap.value as real, cap.value as real),
            maxCompletion := Cut(r.maxCompletion, cap.value as real, cap.value as real))
  }

  function Pass(r: Request, available: int, modelCap: Option<real>): Request {
    var fitted := FitWindow(r, available);
    FitCap(fitted, CapOf(modelCap, fitted))
  }

  // ----- in place ---------------------------------------------------------

  class Payload {
    var maxTokens: Option<real>
    var maxCompletion: Option<real>
    var thinking: Thinking

    constructor (r: Request)
      ensures Value() == r
    {
      maxTokens, maxCompletion, thinking := r.maxTokens, r.maxCompletion, r.thinking;
    }

    function Value(): Request reads this { Request(maxTokens, maxCompletion, thinking) }

    /** The thinking part; returns the budget if it was reduced, else zero. */
    method ClampThinking(available: int) returns (thinkingBudget: real)
      requires available >= 1
      modifies this
      ensures (Value(), thinkingBudget) == FitThinking(old(Value()), available)
    {
      thinkingBudget := 0.0;
      if thinking.Disabled? {
        return;
      }
      if thinking.budget.Unusable? {
        thinking := Disabled;
        return;
      }
      var budget := Trunc(thinking.budget.tokens);
      if budget < MIN_BUDGET {
        thinking := Disabled;
        return;
      }
      var requested := OrZero(maxTokens);
      var created := false;
      if requested <= 0.0 {
        requested := OrZero(maxCompletion);
        if requested > 0.0 {
          maxTokens := Some(requested);
          created := true;
        }
      }
      if requested <= 0.0 {
        requested := Min(available as real, (budget + 1) as real);
        if requested > 0.0 {
          maxTokens := Some(requested);
          created := true;
        }
      }
      if requested > 0.0 {
        var limit := Min(available as real, requested);
        if budget as real >= limit {
          var reduced := Max(MIN_BUDGET as real, limit - 1.0);
          if reduced >= limit {
            thinking := Disabled;
            if created {
              maxTokens := None;
            }
          } else {
            thinking := Enabled(Finite(reduced));
            thinkingBudget := reduced;
          }
        }
      }
    }

    /** `_context_aware_max_tokens_clamp` */
    method ClampTokens(contextWindow: Option<real>, infoMax: Option<real>, chars: nat, modelCap: Option<real>)
      modifies this
      ensures var available := Available(contextWindow, infoMax, chars);
              Value() == if available.None? then old(Value()) else Pass(old(Value()), available.value, modelCap)
    {
      var available := Available(contextWindow, infoMax, chars);
      if available.Some? {
        ClampTo(available.value, modelCap);
      }
    }

    method ClampTo(available: int, modelCap: Option<real>)
      requires available >= 1
      modifies this
      ensures Value() == Pass(old(Value()), available, modelCap)
    {
      var thinkingBudget := ClampThinking(available);
      CutToWindow(available, thinkingBudget);
      CapOutput(modelCap);
    }

    method CutToWindow(available: int, thinkingBudget: real)
      modifies this
      ensures var was, most := old(Value()), available as real;
              var to := Max(if thinkingBudget > 0.0 then thinkingBudget + 1.0 else 1.0, most);
              Value() == was.(maxTokens := Cut(was.maxTokens, most, to), maxCompletion := Cut(was.maxCompletion, most, to))
    {
      var minMax := if thinkingBudget > 0.0 then thinkingBudget + 1.0 else 1.0;
      if maxTokens.Some? && maxTokens.value > available as real {
        maxTokens := Some(Max(minMax, available as real));
      }
      if maxCompletion.Some? && maxCompletion.value > available as real {
        maxCompletion := Some(Max(minMax, available as real));
      }
    }

    method CapOutput(modelCap: Option<real>)
      modifies this
      ensures Value() == FitCap(old(Value()), CapOf(modelCap, old(Value())))
    {
      var cap: Option<int> := None;
      if modelCap.Some? && modelCap.value > 0.0 {
        cap := Some(Trunc(modelCap.value));
      }
      if cap.None? && maxTokens.Some? && maxTokens.value > 0.0 {
        cap := Some(Trunc(maxTokens.value));
      }
      if cap.Some? {
        if maxCompletion.Some? && maxCompletion.value > cap.value as real {
          maxCompletion := Some(cap.value as real);
        }
        if maxTokens.Some? && maxTokens.value > cap.value as real {
          maxTokens := Some(cap.value as real);
        }
      }
    }
  }

  // ----- what a pass achieves ---------------------------------------------

  /** No token field asks for more than there is. */
  predicate FieldsFit(r: Request, available: int) {
    && (r.maxTokens.Some? ==> r.maxTokens.value <= available as real)
    && (r.maxCompletion.Some? ==> r.maxCompletion.value <= available as real)
  }

  /** An enabled thinking block has a budget of at least 1024 tokens, below `max_tokens`. */
  predicate BudgetFits(r: Request) {
    r.thinking.Enabled? ==>
      && r.thinking.budget.Finite? && r.maxTokens.Some?
      && MIN_BUDGET <= Trunc(r.thinking.budget.tokens)
      && Trunc(r.thinking.budget.tokens) as real < r.maxTokens.value
  }

  predicate Fits(r: Request, available: int) { FieldsFit(r, available) && BudgetFits(r) }

  lemma TruncIsBelow(x: real)
    requires x >= 0.0
    ensures Trunc(x) as real <= x < (Trunc(x) + 1) as real
  {
  }

  /** What is available, in numbers: the window less a token per four characters, at least one, and 1024 more. */
  lemma AvailableInNumbers(contextWindow: Option<real>, infoMax: Option<real>, chars: nat)
    ensures var window := if contextWindow.Some? && contextWindow.value != 0.0 then contextWindow else infoMax;
            var used := (if chars < 8 then 1 else chars / 4) + 1024;
            var a := Available(contextWindow, infoMax, chars);
            && (a.Some? <==> window.Some? && window.value >= (used + 1) as real)
            && (a.Some? ==> a.value == window.value.Floor - used)
  {
  }

  /** The limit that counts, in numbers: what is asked for first, or one more than the budget, and no more than there is. */
  lemma LimitInNumbers(r: Request, available: int, budget: int)
    ensures var limit := Limit(r, available, budget);
            && limit <= available as real
            && (r.maxTokens.Some? && r.maxTokens.value > 0.0 ==>
                  limit <= r.maxTokens.value && (limit == available as real || limit == r.maxTokens.value))
            && (!(r.maxTokens.Some? && r.maxTokens.value > 0.0) && r.maxCompletion.Some? && r.maxCompletion.value > 0.0 ==>
                  limit <= r.maxCompletion.value && (limit == available as real || limit == r.maxCompletion.value))
            && (!(r.maxTokens.Some? && r.maxTokens.value > 0.0) && !(r.maxCompletion.Some? && r.maxCompletion.value > 0.0) ==>
                  limit == (if budget + 1 < available then budget + 1 else available) as real)
  {
  }

  /**
    What becomes of `max_tokens` before the cap: with a thinking budget kept it is
    the limit; with one given up it is as it was, or gone if it was of no use;
    without one it stays, and either way it is no more than there is.
  */
  lemma MaxTokensBeforeCap(r: Request, available: int)
    requires available >= 1
    ensures var p := FitWindow(r, available);
            var usable := r.thinking.Enabled? && r.thinking.budget.Finite? && Trunc(r.thinking.budget.tokens) >= 1024;
            && (p.thinking.Enabled? ==> usable)
            && (p.thinking.Enabled? ==> p.maxTokens == Some(Limit(r, available, Trunc(r.thinking.budget.tokens))))
            && (usable && p.thinking.Disabled? ==>
                  p.maxTokens == if r.maxTokens.Some? && r.maxTokens.value > 0.0 then AtMost(r.maxTokens, available as real) else None)
            && (!usable ==> p.maxTokens == AtMost(r.maxTokens, available as real))
            && p.maxCompletion == AtMost(r.maxCompletion, available as real)
  {
  }

  function AtMost(field: Option<real>, most: real): Option<real> {
    match field
    case None => None
    case Some(x) => Some(if x <= most then x else most)
  }

  /** The cap in numbers: the provider's in whole tokens, if it has a positive one; else `max_tokens` in whole tokens. */
  lemma CapInNumbers(r: Request, available: int, modelCap: Option<real>)
    requires available >= 1
    ensures var p, q := FitWindow(r, available), Pass(r, available, modelCap);
            && q.thinking == p.thinking
            && (modelCap.Some? && modelCap.value > 0.0 ==>
                  && q.maxTokens == AtMost(p.maxTokens, modelCap.value.Floor as real)
                  && q.maxCompletion == AtMost(p.maxCompletion, modelCap.value.Floor as real))
            && (!(modelCap.Some? && modelCap.value > 0.0) && p.maxTokens.Some? && p.maxTokens.value > 0.0 ==>
                  && q.maxTokens == Some(p.maxTokens.value.Floor as real)
                  && q.maxCompletion == AtMost(p.maxCompletion, p.maxTokens.value.Floor as real))
            && (!(modelCap.Some? && modelCap.value > 0.0) && !(p.maxTokens.Some? && p.maxTokens.value > 0.0) ==> q == p)
  {
  }

  /** Before the provider cap everything fits. */
  lemma WindowPassFits(r: Request, available: int)
    requires available >= 1
    ensures Fits(FitWindow(r, available), available)
  {
  }

  /**
    Budgets are compared in whole tokens.  The fraction of a budget that is kept as
    it was may exceed `max_tokens`: exactly when the limit lies within it.
  */
  lemma FractionFitsIff(r: Request, available: int, tokens: real)
    requires available >= 1 && r.thinking == Enabled(Finite(tokens)) && Trunc(tokens) >= MIN_BUDGET
    requires Limit(r, available, Trunc(tokens)) > MIN_BUDGET as real
    ensures var p := FitWindow(r, available);
            var limit := Limit(r, available, Trunc(tokens));
            && p.thinking.Enabled? && p.thinking.budget.Finite? && p.maxTokens.Some?
            && (p.thinking.budget.tokens < p.maxTokens.value <==> !(Trunc(tokens) as real < limit <= tokens))
  {
  }

  /** A budget of 2000.7 beside a `max_tokens` of 2000.5, both kept. */
  lemma FractionMayExceed(available: int)
    requires available >= 4000
    ensures var r := Request(Some(2000.5), None, Enabled(Finite(2000.7)));
            !(FitWindow(r, available).thinking.budget.tokens < FitWindow(r, available).maxTokens.value)
  {
    FractionFitsIff(Request(Some(2000.5), None, Enabled(Finite(2000.7))), available, 2000.7);
  }

  /** The output limit that counts: the requested one, or what is left of the window. */
  function Limit(r: Request, available: int, budget: int): real { Min(available as real, Requested(r, available, budget)) }

  /**
    Nothing is cut without need: a field that fits stays, one that does not becomes
    all there is, and thinking goes only when its budget is unusable or below 1024,
    or the limit leaves no room for 1024 tokens below it.  A budget below the limit
    stays; another one becomes one less than the limit, but at least 1024.
  */
  lemma WindowPassIsMinimal(r: Request, available: int)
    requires available >= 1
    ensures var p := FitWindow(r, available);
            && p.maxCompletion == Cut(r.maxCompletion, available as real, available as real)
            && (OrZero(r.maxTokens) > 0.0 ==> p.maxTokens == Cut(r.maxTokens, available as real, available as real))
            && (r.thinking.Enabled? && r.thinking.budget.Finite? && Trunc(r.thinking.budget.tokens) >= MIN_BUDGET ==>
                  var budget := Trunc(r.thinking.budget.tokens);
                  var limit := Limit(r, available, budget);
                  && (p.thinking.Enabled? <==> limit > MIN_BUDGET as real)
                  && (budget as real < limit ==> p.thinking == r.thinking)
                  && (p.thinking.Enabled? && budget as real >= limit ==>
                        p.thinking.budget.tokens == Max(MIN_BUDGET as real, limit - 1.0)))
  {
  }

  /** The cap that applies is at least one token. */
  predicate GoodCap(modelCap: Option<real>) { modelCap.Some? && modelCap.value > 0.0 ==> modelCap.value >= 1.0 }

  /** Under the cap: what a pass would cap by is not exceeded. */
  predicate Capped(r: Request, modelCap: Option<real>) {
    var cap := CapOf(modelCap, r);
    cap.Some? ==>
      && (r.maxTokens.Some? ==> r.maxTokens.value <= cap.value as real)
      && (r.maxCompletion.Some? ==> r.maxCompletion.value <= cap.value as real)
  }

  lemma PassIsCapped(r: Request, available: int, modelCap: Option<real>)
    requires available >= 1
    ensures FieldsFit(Pass(r, available, modelCap), available) && Capped(Pass(r, available, modelCap), modelCap)
    ensures Pass(r, available, modelCap).thinking == FitWindow(r, available).thinking
  {
    WindowPassFits(r, available);
    var fitted := FitWindow(r, available);
    var cap := CapOf(modelCap, fitted);
    if cap.Some? && OrZero(fitted.maxTokens) > 0.0 { TruncIsBelow(fitted.maxTokens.value); }
    if modelCap.Some? && modelCap.value > 0.0 { TruncIsBelow(modelCap.value); }
  }

  /** The promise of the pass: prompt, margin and output fit the context window. */
  lemma OutputFitsWindow(contextWindow: Option<real>, infoMax: Option<real>, chars: nat, r: Request, modelCap: Option<real>)
    requires Available(contextWindow, infoMax, chars).Some?
    ensures var p := Pass(r, Available(contextWindow, infoMax, chars).value, modelCap);
            var room := Window(contextWindow, infoMax).value - (Prompt(chars) + MARGIN) as real;
            && (p.maxTokens.Some? ==> p.maxTokens.value <= room)
            && (p.maxCompletion.Some? ==> p.maxCompletion.value <= room)
  {
    PassIsCapped(r, Available(contextWindow, infoMax, chars).value, modelCap);
  }

  /** A request that fits and is capped is left as it is. */
  lemma FittingRequestStays(r: Request, available: int, modelCap: Option<real>)
    requires available >= 1 && Fits(r, available) && Capped(r, modelCap)
    ensures Pass(r, available, modelCap) == r
  {
  }

  /** After a first pass `max_tokens` is positive when thinking is on, unless the cap truncates to zero. */
  lemma FirstPassKeepsMax(r: Request, available: int, modelCap: Option<real>)
    requires available >= 1 && GoodCap(modelCap)
    ensures var p := Pass(r, available, modelCap);
            p.thinking.Enabled? ==> OrZero(p.maxTokens) >= 1.0 && p.thinking.budget.Finite?
  {
    WindowPassFits(r, available);
  }

  /** On a request that is capped already, a pass makes the budget fit and keeps the cap. */
  lemma SecondPassFits(p: Request, available: int, modelCap: Option<real>)
    requires available >= 1 && FieldsFit(p, available) && Capped(p, modelCap)
    requires p.thinking.Enabled? ==> OrZero(p.maxTokens) > 0.0
    ensures var q := Pass(p, available, modelCap); Fits(q, available) && Capped(q, modelCap)
  {
    WindowPassFits(p, available);
    var fitted := FitWindow(p, available);
    assert fitted.maxTokens == p.maxTokens && fitted.maxCompletion == p.maxCompletion;
    assert Pass(p, available, modelCap) == fitted;
  }

  /** Two passes make everything fit, under the cap too, and a third changes nothing. */
  lemma TwoPassesSettle(r: Request, available: int, modelCap: Option<real>)
    requires available >= 1 && GoodCap(modelCap)
    ensures var twice := Pass(Pass(r, available, modelCap), available, modelCap);
            && Fits(twice, available) && Capped(twice, modelCap)
            && Pass(twice, available, modelCap) == twice
  {
    var once := Pass(r, available, modelCap);
    PassIsCapped(r, available, modelCap);
    FirstPassKeepsMax(r, available, modelCap);
    SecondPassFits(once, available, modelCap);
    FittingRequestStays(Pass(once, available, modelCap), available, modelCap);
  }

  /** What the cap will be after the window has been seen to. */
  function FinalCap(modelCap: Option<real>, limit: real): int {
    if modelCap.Some? && modelCap.value > 0.0 then Trunc(modelCap.value) else Trunc(limit)
  }

  /** The budget a pass leaves, when the limit has room for one. */
  function KeptBudget(tokens: real, limit: real): int {
    Trunc(if Trunc(tokens) as real < limit then tokens else Max(MIN_BUDGET as real, limit - 1.0))
  }

  /**
    The guard on the request: thinking is off, unusable or too small, or the limit
    leaves it no room, or the budget it would keep is below the cap to come.
  */
  predicate OnePassFits(r: Request, available: int, modelCap: Option<real>) {
    || !r.thinking.Enabled? || !r.thinking.budget.Finite?
    || var tokens := r.thinking.budget.tokens;
       || Trunc(tokens) < MIN_BUDGET
       || var limit := Limit(r, available, Trunc(tokens));
          limit <= MIN_BUDGET as real || KeptBudget(tokens, limit) < FinalCap(modelCap, limit)
  }

  lemma WindowPassOfThinker(r: Request, available: int, tokens: real)
    requires available >= 1 && r.thinking == Enabled(Finite(tokens)) && Trunc(tokens) >= MIN_BUDGET
    ensures var p := FitWindow(r, available);
            var limit := Limit(r, available, Trunc(tokens));
            if limit <= MIN_BUDGET as real then p.thinking.Disabled?
            else && p.maxTokens == Some(limit) && p.thinking.Enabled? && p.thinking.budget.Finite?
                 && Trunc(p.thinking.budget.tokens) == KeptBudget(tokens, limit)
  {
  }

  /** One pass makes the budget fit exactly when the guard holds: the cap may fall below the budget. */
  lemma OnePassFitsIff(r: Request, available: int, modelCap: Option<real>)
    requires available >= 1
    ensures BudgetFits(Pass(r, available, modelCap)) <==> OnePassFits(r, available, modelCap)
  {
    WindowPassFits(r, available);
    if r.thinking.Enabled? && r.thinking.budget.Finite? && Trunc(r.thinking.budget.tokens) >= MIN_BUDGET {
      var tokens := r.thinking.budget.tokens;
      var limit := Limit(r, available, Trunc(tokens));
      WindowPassOfThinker(r, available, tokens);
      if limit > MIN_BUDGET as real {
        CapOfThinker(FitWindow(r, available), limit, KeptBudget(tokens, limit), modelCap);
      }
    }
  }

  lemma CapOfThinker(p: Request, limit: real, kept: int, modelCap: Option<real>)
    requires p.maxTokens == Some(limit) && p.thinking.Enabled? && p.thinking.budget.Finite? && limit > MIN_BUDGET as real
    requires MIN_BUDGET <= kept == Trunc(p.thinking.budget.tokens) && kept as real < limit
    ensures BudgetFits(FitCap(p, CapOf(modelCap, p))) <==> kept < FinalCap(modelCap, limit)
  {
    TruncIsBelow(limit);
    if modelCap.Some? && modelCap.value > 0.0 { TruncIsBelow(modelCap.value); }
  }

  /** With a cap of the provider's, and with none when `max_tokens` is fractional. */
  lemma OnePassMayNotFit(available: int)
    requires available >= 4000
    ensures !BudgetFits(Pass(Request(Some(4000.0), None, Enabled(Finite(2000.0))), available, Some(1500.0)))
    ensures !BudgetFits(Pass(Request(Some(2000.5), None, Enabled(Finite(2000.0))), available, None))
  {
    OnePassFitsIff(Request(Some(4000.0), None, Enabled(Finite(2000.0))), available, Some(1500.0));
    OnePassFitsIff(Request(Some(2000.5), None, Enabled(Finite(2000.0))), available, None);
  }

  /**
    Two passes suffice for every request exactly when the provider's cap does not
    truncate to zero, or the window is too small for any thinking.
  */
  lemma TwoPassesSufficeIff(available: int, modelCap: Option<real>)
    requires available >= 1
    ensures (forall r: Request :: Fits(Pass(Pass(r, available, modelCap), available, modelCap), available))
            <==> GoodCap(modelCap) || available <= MIN_BUDGET
  {
    if GoodCap(modelCap) {
      forall r: Request ensures Fits(Pass(Pass(r, available, modelCap), available, modelCap), available) {
        TwoPassesSettle(r, available, modelCap);
      }
    } else if available <= MIN_BUDGET {
      forall r: Request ensures Fits(Pass(Pass(r, available, modelCap), available, modelCap), available) {
        SmallWindowStopsThinking(Pass(r, available, modelCap), available, modelCap);
      }
    } else {
      ZeroCapBreaks(available, modelCap);
      var r := Request(None, None, Enabled(Finite(1024.0)));
      assert !Fits(Pass(Pass(r, available, modelCap), available, modelCap), available);
    }
  }

  lemma SmallWindowStopsThinking(r: Request, available: int, modelCap: Option<real>)
    requires 1 <= available <= MIN_BUDGET
    ensures Fits(Pass(r, available, modelCap), available)
  {
    PassIsCapped(r, available, modelCap);
  }

  lemma ZeroCapBreaks(available: int, modelCap: Option<real>)
    requires available > MIN_BUDGET && !GoodCap(modelCap)
    ensures var r := Request(None, None, Enabled(Finite(1024.0)));
            !BudgetFits(Pass(Pass(r, available, modelCap), available, modelCap))
  {
    var r := Request(None, None, Enabled(Finite(1024.0)));
    assert Trunc(modelCap.value) == 0;
    assert Requested(r, available, 1024) == 1025.0;
    var once := Pass(r, available, modelCap);
    assert once == r.(maxTokens := Some(0.0));
    assert Requested(once, available, 1024) == 1025.0;
    assert Pass(once, available, modelCap) == once;
  }
}
