/** How `process_order` (bot/handlers.py) turns the operator's free text and
    the list of known orders into the options it offers: per-token fuzzy
    matching, intersection of the per-token index sets, the matched names in
    set-iteration order followed by the raw input, and one callback button
    per option. The fuzzy scorer `fuzz.partial_ratio` is a parameter. */
module OrderResolution {
  import opened Text

  /** A fuzzy similarity score. */
  type Score = r: real | 0.0 <= r <= 100.0

  /** `fuzz.partial_ratio(query, choice)`. */
  type Scorer = (string, string) -> Score

  /** `score_cutoff`: a choice matches a token when it scores at least this. */
  const Cutoff: real := 80.0

  const Shortcuts: set<string> := {"цех", "дом", "не знаю"}

  /** The input, stripped and lower-cased, is one of the fixed shortcuts
      that are taken as the order as they are. */
  predicate IsShortcut(norm: string)
  {
    norm in Shortcuts
  }

  const CallbackPrefix: string := "order:"

  /** How many characters of an option its callback data keeps. */
  const CallbackKeep: nat := 50

  /** The index set `fuzz_process.extract` reports for one token. */
  function TokenMatches(token: string, choices: seq<string>, scorer: Scorer): set<nat>
  {
    set i: nat | i < |choices| && scorer(token, choices[i]) >= Cutoff
  }

  /** Index `i` qualifies when candidate `i`, lower-cased, scores at least
      the cutoff against every token. */
  ghost predicate MatchesAll(tokens: seq<string>, orders: seq<string>, scorer: Scorer, i: nat)
  {
    i < |orders| && forall k :: 0 <= k < |tokens| ==> scorer(tokens[k], Lower(orders[i])) >= Cutoff
  }

  /** `[name.lower() for name in orders]`. */
  function LowerAll(orders: seq<string>): (lowered: seq<string>)
    ensures |lowered| == |orders|
    ensures forall i :: 0 <= i < |orders| ==> lowered[i] == Lower(orders[i])
  {
    seq(|orders|, i requires 0 <= i < |orders| => Lower(orders[i]))
  }

  /** The loop over tokens that collects one index set per token. */
  method MatchTokens(tokens: seq<string>, choices: seq<string>, scorer: Scorer) returns (results: seq<set<nat>>)
    ensures |results| == |tokens|
    ensures forall k :: 0 <= k < |tokens| ==>
              forall i: nat :: i in results[k] <==> i < |choices| && scorer(tokens[k], choices[i]) >= Cutoff
  {
    results := [];
    for k := 0 to |tokens|
      invariant |results| == k
      invariant forall j :: 0 <= j < k ==> results[j] == TokenMatches(tokens[j], choices, scorer)
    {
      var matched := TokenMatches(tokens[k], choices, scorer);
      results := results + [matched];
    }
  }

  /** `results[0].intersection(*results[1:])`, and `results[0]` alone when
      there is one set. */
  function Intersection(results: seq<set<nat>>): (common: set<nat>)
    requires |results| > 0
    ensures forall i :: i in common <==> forall k :: 0 <= k < |results| ==> i in results[k]
  {
    if |results| == 1 then results[0]
    else
      var rest := Intersection(results[1..]);
      assert forall i :: i in rest <==> forall k :: 1 <= k < |results| ==> i in results[k] by {
        forall i ensures i in rest <==> forall k :: 1 <= k < |results| ==> i in results[k] {
          if i in rest {
            forall k | 1 <= k < |results| ensures i in results[k] { assert results[k] == results[1..][k - 1]; }
          }
          if forall k :: 1 <= k < |results| ==> i in results[k] {
            forall k | 0 <= k < |results| - 1 ensures i in results[1..][k] { assert results[1..][k] == results[k + 1]; }
          }
        }
      }
      results[0] * rest
  }

  predicate Distinct(xs: seq<nat>)
  {
    forall p, q :: 0 <= p < q < |xs| ==> xs[p] != xs[q]
  }

  /** `[orders_original[i] for i in indices]`. A Python set is iterated in an
      order its contents do not determine, so the order is chosen here by
      `:|`; `picked` records the order chosen. */
  method InSomeOrder(indices: set<nat>, orders: seq<string>) returns (found: seq<string>, picked: seq<nat>)
    requires forall i :: i in indices ==> i < |orders|
    ensures |found| == |picked| == |indices|
    ensures Distinct(picked)
    ensures forall i :: i in indices <==> i in picked
    ensures forall k :: 0 <= k < |picked| ==> picked[k] < |orders| && found[k] == orders[picked[k]]
  {
    found, picked := [], [];
    var remaining := indices;
    while remaining != {}
      invariant remaining <= indices
      invariant |picked| + |remaining| == |indices| && |found| == |picked|
      invariant Distinct(picked)
      invariant forall i :: i in indices <==> i in picked || i in remaining
      invariant forall k :: 0 <= k < |picked| ==> picked[k] !in remaining
      invariant forall k :: 0 <= k < |picked| ==> picked[k] < |orders| && found[k] == orders[picked[k]]
      decreases remaining
    {
      var i :| i in remaining;
      found, picked := found + [orders[i]], picked + [i];
      remaining := remaining - {i};
    }
  }

  /** The options `process_order` offers for a non-shortcut input `raw`
      (already stripped) and a non-empty candidate list: the candidates that
      match every token of the lower-cased input, in some order and each
      once, then `raw` itself. `picked` gives the candidate index behind each
      option but the last. */
  method Options(raw: string, orders: seq<string>, scorer: Scorer) returns (options: seq<string>, picked: seq<nat>)
    ensures OptionsFrom(options, picked, raw, orders, scorer)
    ensures Split(Lower(raw)) == [] ==> options == [raw]
  {
    var tokens := Split(Lower(raw));
    var lowered := LowerAll(orders);
    var results := MatchTokens(tokens, lowered, scorer);
    var indices: set<nat>;
    if results == [] {
      indices := {};
    } else {
      indices := Intersection(results);
    }
    assert forall i: nat :: i in indices <==> |tokens| > 0 && MatchesAll(tokens, orders, scorer, i) by {
      forall i: nat ensures i in indices <==> |tokens| > 0 && MatchesAll(tokens, orders, scorer, i) {
        if |tokens| > 0 && i in indices {
          assert i in results[0];
        }
      }
    }
    var found;
    found, picked := InSomeOrder(indices, orders);
    options := found + [raw];
    assert forall k :: 0 <= k < |picked| ==> options[k] == found[k];
  }

  /** `options` lists, each once and in the order `picked`, the candidates
      that match every token of `raw` lower-cased, and ends with `raw`. */
  ghost predicate OptionsFrom(options: seq<string>, picked: seq<nat>, raw: string, orders: seq<string>, scorer: Scorer)
  {
    && |options| == |picked| + 1 && options[|options| - 1] == raw
    && (forall k :: 0 <= k < |picked| ==> picked[k] < |orders| && options[k] == orders[picked[k]])
    && Distinct(picked)
    && (forall i: nat :: i in picked <==> |Split(Lower(raw))| > 0 && MatchesAll(Split(Lower(raw)), orders, scorer, i))
  }

  /** Whitespace-only text has no tokens, so nothing matches and the raw
      input is the only option. */
  lemma BlankInputHasNoTokens(raw: string)
    requires AllSpace(raw)
    ensures |Split(Lower(raw))| == 0
  {
    assert AllSpace(Lower(raw)) by {
      forall j | 0 <= j < |raw| ensures IsSpace(Lower(raw)[j]) { LowerCharKeepsSpace(raw[j]); }
    }
    SplitEmptyIffBlank(Lower(raw));
  }

  /** The callback data of an option's button: `f"order:{opt[:50]}"`. */
  function CallbackData(option: string): (data: string)
    ensures StartsWith(data, CallbackPrefix)
    ensures |data| <= |CallbackPrefix| + CallbackKeep
  {
    CallbackPrefix + Prefix(option, CallbackKeep)
  }

  /** `callback.data[len("order:"):]`. */
  function SelectedOrder(data: string): string
    requires StartsWith(data, CallbackPrefix)
  {
    data[|CallbackPrefix|..]
  }

  /** Pressing a button gives back the first 50 characters of its option,
      which is the whole option when that is at most 50 long. */
  lemma CallbackRoundTrip(option: string)
    ensures SelectedOrder(CallbackData(option)) == Prefix(option, CallbackKeep)
    ensures |option| <= CallbackKeep ==> SelectedOrder(CallbackData(option)) == option
  {
    assert (CallbackPrefix + Prefix(option, CallbackKeep))[|CallbackPrefix|..] == Prefix(option, CallbackKeep);
  }

  datatype Button = Button(text: string, data: string)

  /** One button per option, labelled with the option, whose callback data
      gives back the option's first 50 characters. */
  ghost predicate ButtonsFor(buttons: seq<Button>, options: seq<string>)
  {
    && |buttons| == |options|
    && forall k :: 0 <= k < |options| ==>
         && buttons[k].text == options[k]
         && StartsWith(buttons[k].data, CallbackPrefix)
         && SelectedOrder(buttons[k].data) == Prefix(options[k], CallbackKeep)
  }

  /** The loop that builds one inline button per option. */
  method Buttons(options: seq<string>) returns (buttons: seq<Button>)
    ensures ButtonsFor(buttons, options)
  {
    buttons := [];
    for k := 0 to |options|
      invariant |buttons| == k
      invariant forall j :: 0 <= j < k ==> buttons[j] == Button(options[j], CallbackData(options[j]))
    {
      buttons := buttons + [Button(options[k], CallbackData(options[k]))];
    }
    forall k | 0 <= k < |options|
      ensures SelectedOrder(buttons[k].data) == Prefix(options[k], CallbackKeep)
    {
      CallbackRoundTrip(options[k]);
    }
  }
}
