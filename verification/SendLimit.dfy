/** How long a prompt may be for each model: limits that shrink when the
    upstream finds a prompt too long, and the lossless split of a prompt. */
module SendLimit {
  import opened Common

  const SMALLEST := 50000

  /** The prompt splitter of the server. */
  datatype Splitter = Splitter(maxChars: int, sendFull: bool)

  /** The limits in force: shrunk limits by model, the splitter's limit, and
      the configured one. `sendFull` is the setting that forbids splitting. */
  datatype Limits = Limits(overrides: map<string, int>, splitter: Option<Splitter>, fallback: int, sendFull: bool)

  /** A request without a model, or with an empty one, has no limit of its own. */
  function Key(model: Option<string>): Option<string> { if model == Some("") then None else model }

  function Effective(l: Limits, model: Option<string>): int {
    var key := Key(model);
    if key.Some? && key.value in l.overrides then l.overrides[key.value]
    else if l.splitter.Some? && l.splitter.value.maxChars != 0 then l.splitter.value.maxChars
    else l.fallback
  }

  // ---- Shrinking --------------------------------------------------------

  /** A prompt of this model was too long and there is a limit to shrink. */
  predicate Shrinks(l: Limits, model: Option<string>) {
    && !l.sendFull && Effective(l, model) > SMALLEST
    && (Key(model).Some? || l.splitter.Some?)
  }

  function Shrink(l: Limits, model: Option<string>): Limits {
    if l.sendFull || Effective(l, model) <= SMALLEST then l
    else
      var limit, key := Max(SMALLEST, Effective(l, model) / 2), Key(model);
      if key.Some? then l.(overrides := l.overrides[key.value := limit])
      else if l.splitter.Some? then l.(splitter := Some(l.splitter.value.(maxChars := limit)))
      else l
  }

  /** A shrink lowers the limit of its model, to no less than the smallest one,
      and that of no model with a limit of its own. */
  lemma ShrinkLowers(l: Limits, model: Option<string>)
    ensures Shrinks(l, model) <==> Shrink(l, model) != l
    ensures Shrinks(l, model) ==>
      SMALLEST <= Effective(Shrink(l, model), model) == Max(SMALLEST, Effective(l, model) / 2) < Effective(l, model)
    ensures forall other :: other != "" && other in l.overrides && Key(model) != Some(other) ==>
      Effective(Shrink(l, model), Some(other)) == Effective(l, Some(other))
    ensures forall other :: Key(model).Some? && Key(other) != Key(model) ==>
      Effective(Shrink(l, model), other) == Effective(l, other)
  {
    if Shrinks(l, model) {
      assert Effective(Shrink(l, model), model) < Effective(l, model);
    }
  }

  /** How many shrinks take a limit to the smallest one. */
  function Steps(limit: int): nat
    decreases if limit > SMALLEST then limit else 0
  {
    if limit <= SMALLEST then 0 else 1 + Steps(Max(SMALLEST, limit / 2))
  }

  function Pow2(k: nat): nat { if k == 0 then 1 else 2 * Pow2(k - 1) }

  /** Steps is the logarithm of the limit over the smallest one. */
  lemma {:induction false} StepsAreLogarithmic(limit: int, k: nat)
    ensures Steps(limit) <= k <==> limit < (SMALLEST + 1) * Pow2(k)
    decreases k
  {
    PowIsPositive(k);
    if limit > SMALLEST && k > 0 {
      var next := Max(SMALLEST, limit / 2);
      StepsAreLogarithmic(next, k - 1);
      PowIsPositive(k - 1);
      assert (SMALLEST + 1) * Pow2(k) == 2 * ((SMALLEST + 1) * Pow2(k - 1));
    } else {
      assert (SMALLEST + 1) * Pow2(k) >= SMALLEST + 1;
    }
  }

  lemma {:induction false} PowIsPositive(k: nat)
    ensures Pow2(k) >= 1
  {
    if k > 0 { PowIsPositive(k - 1); }
  }

  lemma {:induction false} StepsGrow(a: int, b: int)
    requires a <= b
    ensures Steps(a) <= Steps(b)
    decreases if b > SMALLEST then b else 0
  {
    if b > SMALLEST && a > SMALLEST { StepsGrow(Max(SMALLEST, a / 2), Max(SMALLEST, b / 2)); }
  }

  /** Prompts found too long over the life of the server, by model. */
  function ShrinkAll(l: Limits, models: seq<Option<string>>): Limits
    decreases |models|
  {
    if models == [] then l else ShrinkAll(Shrink(l, models[0]), models[1..])
  }

  function ShrinksOf(l: Limits, models: seq<Option<string>>, model: Option<string>): nat
    decreases |models|
  {
    if models == [] then 0
    else
      (if Key(models[0]) == Key(model) && Shrinks(l, models[0]) then 1 else 0)
      + ShrinksOf(Shrink(l, models[0]), models[1..], model)
  }

  lemma OneShrink(l: Limits, long: Option<string>, model: Option<string>)
    ensures
      var m, before, after := Shrink(l, long), Effective(l, model), Effective(Shrink(l, long), model);
      && m.sendFull == l.sendFull
      && (if before < SMALLEST then before else SMALLEST) <= after <= before
      && (Key(long) == Key(model) && Shrinks(l, long) ==> Steps(before) == 1 + Steps(after))
  {
    hide Steps;
    ShrinkLowers(l, long);
    if Key(long) == Key(model) && Shrinks(l, long) {
      StepsUnfold(Effective(l, model));
    }
  }

  lemma StepsUnfold(limit: int)
    requires limit > SMALLEST
    ensures Steps(limit) == 1 + Steps(Max(SMALLEST, limit / 2))
  {}

  /** Over any life of the server, whatever models have prompts that are too
      long: a model's limit never rises, never falls below the smallest, and
      shrinks at most logarithmically often. */
  lemma {:induction false} ShrinksAreBounded(l: Limits, models: seq<Option<string>>, model: Option<string>)
    ensures
      var before, after := Effective(l, model), Effective(ShrinkAll(l, models), model);
      && (if before < SMALLEST then before else SMALLEST) <= after <= before
      && ShrinksOf(l, models, model) + Steps(after) <= Steps(before)
    decreases |models|
  {
    hide Steps, Shrink, Effective, Shrinks;
    if models != [] {
      var next := Shrink(l, models[0]);
      OneShrink(l, models[0], model);
      StepsGrow(Effective(next, model), Effective(l, model));
      ShrinksAreBounded(next, models[1..], model);
    }
  }

  // ---- Splitting --------------------------------------------------------

  /** Slicing with a negated bound: the end of a text, and what comes before. */
  function Tail(text: string, limit: int): string {
    if limit >= |text| then text
    else if limit > 0 then text[|text| - limit..]
    else if -limit >= |text| then ""
    else text[-limit..]
  }

  function Head(text: string, limit: int): string {
    if limit >= |text| then ""
    else if limit > 0 then text[..|text| - limit]
    else if -limit >= |text| then text
    else text[..-limit]
  }

  /** What is sent, and what is attached as a file. */
  function Split(splitter: Splitter, text: string, limit: int): (string, Option<string>) {
    if splitter.sendFull || |text| <= limit then (text, None) else (Tail(text, limit), Some(Head(text, limit)))
  }

  function Attached(file: Option<string>): string { if file.Some? then file.value else "" }

  /** Nothing is lost in a split; the part sent respects the limit exactly when
      the text did already or a split with a positive limit is allowed. */
  lemma SplitIsLossless(splitter: Splitter, text: string, limit: int)
    ensures
      var (send, file) := Split(splitter, text, limit);
      && Attached(file) + send == text
      && (|send| <= limit <==> |text| <= limit || (limit >= 1 && !splitter.sendFull))
      && (file.Some? && limit >= 1 ==> |send| == limit && file.value != "")
  {}

  /** With a limit of zero the whole prompt is sent all the same. */
  lemma ZeroLimitSendsAll(text: string)
    requires text != ""
    ensures Split(Splitter(0, false), text, 0) == (text, Some("")) && |text| > 0
  {}

  /** What a request sends: split into a file for upstreams that take files,
      else cut, unless splitting is off. */
  function Budget(l: Limits, text: string, model: Option<string>, asFile: bool): (string, Option<string>) {
    if l.splitter.None? then (text, None)
    else
      var splitter := l.splitter.value;
      var limit := if Key(model).Some? then Effective(l, model) else splitter.maxChars;
      if asFile then Split(splitter, text, limit)
      else if !splitter.sendFull && 0 < limit < |text| then (text[|text| - limit..], None)
      else (text, None)
  }

  /** What is sent is the end of the prompt; with a file nothing is lost. */
  lemma BudgetKeepsTheEnd(l: Limits, text: string, model: Option<string>, asFile: bool)
    ensures
      var (send, file) := Budget(l, text, model, asFile);
      && |send| <= |text| && send == text[|text| - |send|..]
      && (asFile ==> Attached(file) + send == text)
      && (!asFile ==> file == None)
  {}

  /** How much is sent: all of it, if there is no splitter, if splitting is off, or
      if the limit is respected already or is none; else as much as the limit
      allows. The limit is the model's own, else the splitter's, else the one
      configured; a request without a model has the splitter's alone. A file split
      with a limit below zero sends what is left after that many characters. */
  lemma BudgetLength(l: Limits, text: string, model: Option<string>, asFile: bool)
    ensures
      var sent := |Budget(l, text, model, asFile).0|;
      if l.splitter.None? || l.splitter.value.sendFull then sent == |text|
      else
        var named, own := model.Some? && model.value != "", l.splitter.value.maxChars;
        var limit :=
          if named && model.value in l.overrides then l.overrides[model.value]
          else if named && own == 0 then l.fallback
          else own;
        if |text| <= limit || limit == 0 || (limit < 0 && !asFile) then sent == |text|
        else if limit > 0 then sent == limit
        else sent == Max(0, |text| + limit)
  {}

  /** After a shrink the next prompt of that model keeps to the new limit. */
  lemma NextBudgetUsesNewLimit(l: Limits, model: Option<string>, text: string, asFile: bool)
    requires Shrinks(l, model) && l.splitter.Some? && !l.splitter.value.sendFull
    ensures
      var m := Shrink(l, model);
      && Effective(m, model) < Effective(l, model)
      && |Budget(m, text, model, asFile).0| <= Effective(m, model)
  {
    hide Split;
    ShrinkLowers(l, model);
    var m := Shrink(l, model);
    SplitIsLossless(m.splitter.value, text, Effective(m, model));
  }
}
