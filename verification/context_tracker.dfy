/**
 Context usage over the turns of many conversations: what a turn surfaces depends on the earlier
 turns under the same key, back to the last reset, and on nothing else.
 */
module ContextTracker {
  import opened JsonText
  import opened TextSpaces

  datatype ContextUsageState = ContextUsageState(latestPrompt: int, cumulativeOutput: int, lastTotal: int)

  const NO_CONTEXT: ContextUsageState := ContextUsageState(0, 0, 0)

  datatype TrackedUsage = TrackedUsage(usage: Usage, rawPrompt: int, rawTotal: int, rolledFrom: int)

  /** The prompt or the total has fallen below half of the previous turn's. */
  predicate ShouldReset(prev: ContextUsageState, raw: Usage) {
    && prev != NO_CONTEXT
    && ((raw.promptTokens > 0 && prev.latestPrompt > 0 && raw.promptTokens * 2 < prev.latestPrompt)
        || (raw.totalTokens > 0 && prev.lastTotal > 0 && raw.totalTokens * 2 < prev.lastTotal))
  }

  // ---- The history ----

  datatype Turn = Turn(key: string, raw: Usage)

  /** The turns under one key, in order. */
  function Own(key: string, history: seq<Turn>): seq<Usage> {
    if history == [] then []
    else
      var last := history[|history| - 1];
      Own(key, history[..|history| - 1]) + if last.key == key then [last.raw] else []
  }

  function Completions(turns: seq<Usage>): int {
    if turns == [] then 0 else Completions(turns[..|turns| - 1]) + turns[|turns| - 1].completionTokens
  }

  /** The turns since the last reset, the resetting turn included. */
  function SinceReset(turns: seq<Usage>): seq<Usage>
    decreases |turns|, 1
  {
    if turns == [] then []
    else
      var before, last := turns[..|turns| - 1], turns[|turns| - 1];
      if Resets(before, last) then [last] else SinceReset(before) + [last]
  }

  /**
   A turn resets when its prompt is under half of the previous prompt, or its total under half of
   what the previous turn surfaced as its total.
   */
  predicate Resets(before: seq<Usage>, raw: Usage)
    decreases |before|, 2
  {
    before != [] &&
    var prompt := before[|before| - 1].promptTokens;
    var total := prompt + Completions(SinceReset(before));
    || (raw.promptTokens > 0 && prompt > 0 && raw.promptTokens * 2 < prompt)
    || (raw.totalTokens > 0 && total > 0 && raw.totalTokens * 2 < total)
  }

  /** What a key's state is after its turns: the latest prompt and the completions since the last reset. */
  function StateOf(turns: seq<Usage>): (s: ContextUsageState)
    ensures s.lastTotal == s.latestPrompt + s.cumulativeOutput
  {
    if turns == [] then NO_CONTEXT
    else
      var prompt, output := turns[|turns| - 1].promptTokens, Completions(SinceReset(turns));
      ContextUsageState(prompt, output, prompt + output)
  }

  /** What a turn carries over. */
  function Rolled(before: seq<Usage>, raw: Usage): int {
    if Resets(before, raw) then 0 else Completions(SinceReset(before))
  }

  lemma CompletionsPush(turns: seq<Usage>, raw: Usage)
    ensures Completions(turns + [raw]) == Completions(turns) + raw.completionTokens
  {
    assert (turns + [raw])[..|turns|] == turns;
  }

  /** The state after one more turn. */
  lemma StatePush(before: seq<Usage>, raw: Usage)
    ensures
      var output := Rolled(before, raw) + raw.completionTokens;
      StateOf(before + [raw]) == ContextUsageState(raw.promptTokens, output, raw.promptTokens + output)
  {
    assert (before + [raw])[..|before|] == before;
    CompletionsPush([], raw);
    CompletionsPush(SinceReset(before), raw);
    assert [] + [raw] == [raw];
  }

  /** The tracker's test on its state is the test on the turns. */
  lemma ResetTest(before: seq<Usage>, raw: Usage)
    ensures ShouldReset(StateOf(before), raw) <==> Resets(before, raw)
  {
  }

  /** What the tracker computes for a turn, from its state alone. */
  lemma TurnStep(before: seq<Usage>, raw: Usage)
    ensures Rolled(before, raw) == if ShouldReset(StateOf(before), raw) then 0 else StateOf(before).cumulativeOutput
    ensures
      var output := Rolled(before, raw) + raw.completionTokens;
      StateOf(before + [raw]) == ContextUsageState(raw.promptTokens, output, raw.promptTokens + output)
    ensures StateOf([]) == NO_CONTEXT
  {
    ResetTest(before, raw);
    StatePush(before, raw);
  }

  /** The latest fresh start is turn k: it resets or is the first, and no later turn resets. */
  predicate FreshAt(turns: seq<Usage>, k: nat) {
    && k <= |turns| && (turns != [] ==> k < |turns|) && SinceReset(turns) == turns[k..]
    && (0 < k < |turns| ==> Resets(turns[..k], turns[k]))
    && forall j :: k < j < |turns| ==> !Resets(turns[..j], turns[j])
  }

  lemma FreshNow(before: seq<Usage>, raw: Usage)
    requires Resets(before, raw)
    ensures FreshAt(before + [raw], |before|)
  {
    hide Resets;
    var turns := before + [raw];
    assert turns[..|before|] == before && turns[|before|..] == [raw];
  }

  lemma StaysFresh(before: seq<Usage>, raw: Usage, k: nat)
    requires FreshAt(before, k) && !Resets(before, raw)
    ensures FreshAt(before + [raw], k)
  {
    hide Resets;
    var turns := before + [raw];
    assert turns[..|before|] == before && turns[k..] == before[k..] + [raw];
    forall j | 0 <= j < |before|
      ensures turns[..j] == before[..j] && turns[j] == before[j]
    {
    }
  }

  /** The turns since the last reset are a tail of the turns, and none of them but the first resets. */
  lemma {:induction false} SinceResetIsTail(turns: seq<Usage>) returns (k: nat)
    ensures FreshAt(turns, k)
  {
    if turns == [] {
      k := 0;
    } else {
      hide Resets, FreshAt;
      var n := |turns| - 1;
      assert turns == turns[..n] + [turns[n]];
      if Resets(turns[..n], turns[n]) {
        k := n;
        FreshNow(turns[..n], turns[n]);
      } else {
        k := SinceResetIsTail(turns[..n]);
        StaysFresh(turns[..n], turns[n], k);
      }
    }
  }

  /** The total the last turn showed: its prompt and the completions carried with it. */
  function LastTotal(turns: seq<Usage>): int
    requires turns != []
  {
    turns[|turns| - 1].promptTokens + Completions(SinceReset(turns))
  }

  /**
   A turn whose prompt is less than half of the last prompt, or whose total is less than half of the
   last total shown, starts afresh; any other turn carries the completions since the last fresh start.
   */
  lemma CarriesOverIff(before: seq<Usage>, raw: Usage)
    requires before != []
    ensures
      var prompt, total := before[|before| - 1].promptTokens, LastTotal(before);
      var halved := (0 < raw.promptTokens && raw.promptTokens + raw.promptTokens < prompt)
                    || (0 < raw.totalTokens && raw.totalTokens + raw.totalTokens < total);
      && Rolled(before, raw) == (if halved then 0 else Completions(SinceReset(before)))
      && SinceReset(before + [raw]) == (if halved then [raw] else SinceReset(before) + [raw])
  {
    assert (before + [raw])[..|before|] == before;
  }

  lemma {:induction false} CompletionsAdd(a: seq<Usage>, b: seq<Usage>, raw: Usage)
    ensures Completions([]) == 0 && Completions([raw]) == raw.completionTokens
    ensures Completions(a + b) == Completions(a) + Completions(b)
    decreases |b|
  {
    if b == [] {
      assert a + b == a;
    } else {
      var n := |b| - 1;
      CompletionsAdd(a, b[..n], raw);
      assert (a + b)[..|a| + n] == a + b[..n];
    }
  }

  predicate NonNegative(raw: Usage) {
    raw.promptTokens >= 0 && raw.completionTokens >= 0 && raw.totalTokens >= 0
  }

  lemma {:induction false} CompletionsNonNegative(turns: seq<Usage>)
    requires forall i :: 0 <= i < |turns| ==> NonNegative(turns[i])
    ensures Completions(SinceReset(turns)) >= 0
  {
    if turns != [] {
      var before, last := turns[..|turns| - 1], turns[|turns| - 1];
      CompletionsNonNegative(before);
      CompletionsPush(SinceReset(before), last);
      CompletionsPush([], last);
      assert [] + [last] == [last];
    }
  }

  /** Whenever a turn reports a positive total, what it carries over is at most twice that total. */
  lemma RolledIsBounded(before: seq<Usage>, raw: Usage)
    requires forall i :: 0 <= i < |before| ==> NonNegative(before[i])
    requires raw.totalTokens > 0
    ensures 0 <= Rolled(before, raw) <= 2 * raw.totalTokens
  {
    CompletionsNonNegative(before);
    if before != [] {
      assert NonNegative(before[|before| - 1]);
    }
  }

  /** The history with the turns under other keys taken out. */
  function Alone(key: string, history: seq<Turn>): seq<Turn> {
    if history == [] then []
    else
      var last := history[|history| - 1];
      Alone(key, history[..|history| - 1]) + if last.key == key then [last] else []
  }

  lemma OtherKeyPush(key: string, history: seq<Turn>, other: Turn)
    requires other.key != key
    ensures Own(key, history + [other]) == Own(key, history)
  {
    assert (history + [other])[..|history|] == history;
  }

  lemma {:induction false} OwnAlone(key: string, history: seq<Turn>)
    ensures Own(key, Alone(key, history)) == Own(key, history)
  {
    if history != [] {
      var rest, last := history[..|history| - 1], history[|history| - 1];
      OwnAlone(key, rest);
      if last.key == key {
        assert last == Turn(key, last.raw);
        OwnPush(key, Alone(key, rest), last.raw);
      } else {
        assert Alone(key, rest) + [] == Alone(key, rest);
      }
    }
  }

  /**
   Other keys never matter: two histories that agree on the turns under a key, however these are
   interleaved with others, give that key the same state and every next turn the same rollover.
   */
  lemma OtherKeysDoNotMatter(key: string, a: seq<Turn>, b: seq<Turn>, raw: Usage)
    requires Alone(key, a) == Alone(key, b)
    ensures StateOf(Own(key, a)) == StateOf(Own(key, b)) && Rolled(Own(key, a), raw) == Rolled(Own(key, b), raw)
    ensures Own(key, Alone(key, a)) == Own(key, a)
  {
    hide Rolled, StateOf;
    OwnAlone(key, a);
    OwnAlone(key, b);
  }

  lemma OwnPush(key: string, history: seq<Turn>, raw: Usage)
    ensures Own(key, history + [Turn(key, raw)]) == Own(key, history) + [raw]
  {
    assert (history + [Turn(key, raw)])[..|history|] == history;
  }

  class ContextUsageTracker {
    var state: map<string, ContextUsageState>
    ghost var history: seq<Turn>

    ghost predicate Valid()
      reads this
    {
      && (forall key :: key in state ==> state[key] == StateOf(Own(key, history)))
      && (forall key :: key !in state ==> Own(key, history) == [])
    }

    constructor ()
      ensures Valid() && history == []
    {
      state := map[];
      history := [];
    }

    /** One turn. A blank key is not tracked. */
    method Track(key: string, raw: Usage) returns (t: TrackedUsage)
      requires Valid()
      modifies this
      ensures Valid() && history == if Blank(key) then old(history) else old(history) + [Turn(key, raw)]
      ensures t.rawPrompt == raw.promptTokens && t.rawTotal == raw.totalTokens
      ensures t.rolledFrom == if Blank(key) then 0 else Rolled(Own(key, old(history)), raw)
      ensures Blank(key) ==> t.usage == raw
      ensures !Blank(key) ==>
                t.usage == raw.(promptTokens := raw.promptTokens + t.rolledFrom,
                                totalTokens := raw.promptTokens + t.rolledFrom + raw.completionTokens)
    {
      hide Blank, TrimSpace, Rolled, StateOf, Own;
      TrimBlank(key);
      if TrimSpace(key) == "" {
        return TrackedUsage(raw, raw.promptTokens, raw.totalTokens, 0);
      }
      ghost var before := Own(key, history);
      TurnStep(before, raw);
      var st := if key in state then state[key] else NO_CONTEXT;
      var rolledFrom := st.cumulativeOutput;
      if ShouldReset(st, raw) {
        st := NO_CONTEXT;
        rolledFrom := 0;
      }
      var prompt := raw.promptTokens + rolledFrom;
      var surfaced := raw.(promptTokens := prompt, totalTokens := prompt + raw.completionTokens);
      st := ContextUsageState(raw.promptTokens, rolledFrom + raw.completionTokens, surfaced.totalTokens);
      OwnPush(key, history, raw);
      forall other: string | other != key
        ensures Own(other, history + [Turn(key, raw)]) == Own(other, history)
      {
        OtherKeyPush(other, history, Turn(key, raw));
      }
      state := state[key := st];
      history := history + [Turn(key, raw)];
      return TrackedUsage(surfaced, raw.promptTokens, raw.totalTokens, rolledFrom);
    }
  }
}
