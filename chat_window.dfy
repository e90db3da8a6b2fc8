/**
 * The thread view: date labels for messages, the grouping of consecutive
 * messages under one date label, whether a message shows its avatar, and
 * whether the "typing..." indicator is shown. The locale formatting of a
 * timestamp (`toLocaleTimeString`, and the Today/Yesterday/month-day label
 * computed against the current date) is an opaque function passed in.
 */
module ChatWindow {
  import opened Wrappers
  import opened ClientData

  /** `formatTime(timestamp)`: empty for a missing timestamp, else the clock label. */
  function FormatTime(ts: Option<int>, clockLabel: int -> string): (r: string)
    ensures ts.None? ==> r == ""
    ensures ts.Some? ==> r == clockLabel(ts.value)
  {
    if ts.None? then "" else clockLabel(ts.value)
  }

  /** `formatDate(timestamp)`: empty for a missing timestamp, else the day label. */
  function FormatDate(ts: Option<int>, dayLabel: int -> string): (r: string)
    ensures ts.None? ==> r == ""
    ensures ts.Some? ==> r == dayLabel(ts.value)
  {
    if ts.None? then "" else dayLabel(ts.value)
  }

  /** The key a message is grouped under. */
  function DateKey(e: Entry, dayLabel: int -> string): string
  {
    FormatDate(TimestampOf(e), dayLabel)
  }

  /** `{...msg, index}`: a message with its position in the thread. */
  datatype Tagged = Tagged(msg: Entry, index: nat)

  datatype Group = Group(date: string, messages: seq<Tagged>)

  /** Every message tagged with its own index. */
  function Tag(ms: seq<Entry>): (r: seq<Tagged>)
    ensures |r| == |ms|
    ensures forall i | 0 <= i < |ms| :: r[i] == Tagged(ms[i], i)
  {
    seq(|ms|, i requires 0 <= i < |ms| => Tagged(ms[i], i))
  }

  /** The groups' messages one after the other. */
  function Flatten(gs: seq<Group>): seq<Tagged>
  {
    if gs == [] then [] else Flatten(gs[..|gs| - 1]) + gs[|gs| - 1].messages
  }

  lemma FlattenSnoc(gs: seq<Group>, g: Group)
    ensures Flatten(gs + [g]) == Flatten(gs) + g.messages
  {
    assert (gs + [g])[..|gs|] == gs;
  }

  /** Each group is non-empty and all its messages carry the group's key. */
  ghost predicate GroupsKeyed(gs: seq<Group>, dayLabel: int -> string)
  {
    forall g | g in gs :: g.messages != [] && forall t | t in g.messages :: DateKey(t.msg, dayLabel) == g.date
  }

  /** Neighbouring groups have different keys: every group is a maximal run. */
  ghost predicate RunsMaximal(gs: seq<Group>)
  {
    forall k | 0 <= k < |gs| - 1 :: gs[k].date != gs[k + 1].date
  }

  /** Appending a non-empty group whose messages all carry its key keeps every group keyed. */
  lemma {:induction false} KeyedSnoc(gs: seq<Group>, g: Group, dayLabel: int -> string)
    requires GroupsKeyed(gs, dayLabel)
    requires g.messages != [] && forall t | t in g.messages :: DateKey(t.msg, dayLabel) == g.date
    ensures GroupsKeyed(gs + [g], dayLabel)
  {
    forall h | h in gs + [g]
      ensures h.messages != [] && forall t | t in h.messages :: DateKey(t.msg, dayLabel) == h.date
    {
      if h != g {
        assert h in gs;
      }
    }
  }

  /** Appending a group whose key differs from the last group's keeps the runs maximal. */
  lemma {:induction false} RunsSnoc(gs: seq<Group>, g: Group)
    requires RunsMaximal(gs)
    requires gs == [] || gs[|gs| - 1].date != g.date
    ensures RunsMaximal(gs + [g])
  {
    var next := gs + [g];
    forall k | 0 <= k < |next| - 1 ensures next[k].date != next[k + 1].date {
      assert next[k] == gs[k];
      if k + 1 < |gs| {
        assert next[k + 1] == gs[k + 1];
      }
    }
  }

  /** One more message whose key differs from the last group's (or the first message) opens a group. */
  lemma {:induction false} StartGroup(groups: seq<Group>, messages: seq<Entry>, i: nat, dayLabel: int -> string)
    requires i < |messages|
    requires Flatten(groups) == Tag(messages)[..i]
    requires GroupsKeyed(groups, dayLabel) && RunsMaximal(groups)
    requires groups == [] || groups[|groups| - 1].date != DateKey(messages[i], dayLabel)
    ensures var next := groups + [Group(DateKey(messages[i], dayLabel), [Tagged(messages[i], i)])];
            && Flatten(next) == Tag(messages)[..i + 1]
            && GroupsKeyed(next, dayLabel)
            && RunsMaximal(next)
  {
    var item := Tagged(messages[i], i);
    var g := Group(DateKey(messages[i], dayLabel), [item]);
    FlattenSnoc(groups, g);
    TagSnoc(messages, i);
    KeyedSnoc(groups, g, dayLabel);
    RunsSnoc(groups, g);
  }

  /** The first i + 1 tagged messages are the first i and the i-th. */
  lemma TagSnoc(messages: seq<Entry>, i: nat)
    requires i < |messages|
    ensures Tag(messages)[..i + 1] == Tag(messages)[..i] + [Tagged(messages[i], i)]
  {
  }

  /** The groups with `item` appended to the last one. */
  function Extended(groups: seq<Group>, item: Tagged): (next: seq<Group>)
    requires groups != []
    ensures |next| == |groups|
    ensures next[..|groups| - 1] == groups[..|groups| - 1]
    ensures next[|groups| - 1].date == groups[|groups| - 1].date
    ensures next[|groups| - 1].messages == groups[|groups| - 1].messages + [item]
  {
    var last := groups[|groups| - 1];
    groups[..|groups| - 1] + [last.(messages := last.messages + [item])]
  }

  /** Appending to the last group appends to the flattened sequence. */
  lemma {:induction false} FlattenExtended(groups: seq<Group>, item: Tagged)
    requires groups != []
    ensures Flatten(Extended(groups, item)) == Flatten(groups) + [item]
  {
    var last := groups[|groups| - 1];
    var earlier := groups[..|groups| - 1];
    var longer := last.(messages := last.messages + [item]);
    assert groups == earlier + [last];
    assert Extended(groups, item) == earlier + [longer];
    FlattenSnoc(earlier, last);
    FlattenSnoc(earlier, longer);
  }

  /** One more message whose key equals the last group's joins that group. */
  lemma {:induction false} ExtendGroup(groups: seq<Group>, messages: seq<Entry>, i: nat, dayLabel: int -> string)
    requires i < |messages|
    requires Flatten(groups) == Tag(messages)[..i]
    requires GroupsKeyed(groups, dayLabel) && RunsMaximal(groups)
    requires groups != [] && groups[|groups| - 1].date == DateKey(messages[i], dayLabel)
    ensures var next := Extended(groups, Tagged(messages[i], i));
            && Flatten(next) == Tag(messages)[..i + 1]
            && GroupsKeyed(next, dayLabel)
            && RunsMaximal(next)
  {
    var last := groups[|groups| - 1];
    var earlier := groups[..|groups| - 1];
    var item := Tagged(messages[i], i);
    var longer := last.(messages := last.messages + [item]);
    assert groups == earlier + [last];
    assert Extended(groups, item) == earlier + [longer];
    FlattenExtended(groups, item);
    TagSnoc(messages, i);
    KeyedExtend(earlier, last, item, dayLabel);
    RunsExtend(earlier, last, longer);
  }

  /** Growing the last group by a message with its key keeps every group keyed. */
  lemma {:induction false} KeyedExtend(earlier: seq<Group>, last: Group, item: Tagged, dayLabel: int -> string)
    requires GroupsKeyed(earlier + [last], dayLabel)
    requires DateKey(item.msg, dayLabel) == last.date
    ensures GroupsKeyed(earlier + [last.(messages := last.messages + [item])], dayLabel)
  {
    var longer := last.(messages := last.messages + [item]);
    assert GroupsKeyed(earlier, dayLabel) by {
      forall h | h in earlier ensures h in earlier + [last] { }
    }
    assert last in earlier + [last];
    forall t | t in longer.messages ensures DateKey(t.msg, dayLabel) == longer.date {
      if t != item {
        assert t in last.messages;
      }
    }
    KeyedSnoc(earlier, longer, dayLabel);
  }

  /** Replacing the last group by one with the same key keeps the runs maximal. */
  lemma {:induction false} RunsExtend(earlier: seq<Group>, last: Group, longer: Group)
    requires RunsMaximal(earlier + [last])
    requires longer.date == last.date
    ensures RunsMaximal(earlier + [longer])
  {
    var before := earlier + [last];
    var after := earlier + [longer];
    forall k | 0 <= k < |after| - 1 ensures after[k].date != after[k + 1].date {
      assert after[k] == before[k];
      assert after[k + 1].date == before[k + 1].date;
    }
  }

  /** `groupMessagesByDate()`: the thread cut into maximal runs of messages with the same date key. */
  method GroupMessagesByDate(messages: seq<Entry>, dayLabel: int -> string) returns (groups: seq<Group>)
    ensures Flatten(groups) == Tag(messages)
    ensures GroupsKeyed(groups, dayLabel)
    ensures RunsMaximal(groups)
    ensures groups == [] <==> messages == []
  {
    groups := [];
    var i := 0;
    while i < |messages|
      invariant 0 <= i <= |messages|
      invariant Flatten(groups) == Tag(messages)[..i]
      invariant GroupsKeyed(groups, dayLabel)
      invariant RunsMaximal(groups)
      invariant groups == [] <==> i == 0
    {
      var key := DateKey(messages[i], dayLabel);
      var item := Tagged(messages[i], i);
      if groups == [] || groups[|groups| - 1].date != key {
        StartGroup(groups, messages, i, dayLabel);
        groups := groups + [Group(key, [item])];
      } else {
        ExtendGroup(groups, messages, i, dayLabel);
        groups := Extended(groups, item);
      }
      i := i + 1;
    }
    assert Tag(messages)[..|messages|] == Tag(messages);
  }

  /**
   * `isSameSender(current, previous)`: false without a previous message;
   * otherwise both are stored messages with the same role, or both are
   * role-less send responses (whose missing roles compare equal).
   */
  function IsSameSender(current: Entry, previous: Option<Entry>): (same: bool)
    ensures same <==> previous.Some? &&
                      ((current.Stored? && previous.value.Stored? && current.role == previous.value.role)
                       || (current.SendResult? && previous.value.SendResult?))
  {
    previous.Some? && RoleOf(current) == RoleOf(previous.value)
  }

  /** Whether the k-th message of a group shows its avatar: `!isSameSender(msg, previousInGroup)`. */
  predicate ShowAvatar(g: Group, k: nat)
    requires k < |g.messages|
  {
    !IsSameSender(g.messages[k].msg, if k > 0 then Some(g.messages[k - 1].msg) else None)
  }

  /** An avatar is shown exactly where a group starts or the role changes inside it. */
  lemma AvatarWhereSenderChanges(g: Group, k: nat)
    requires k < |g.messages|
    ensures ShowAvatar(g, k) <==> k == 0 || RoleOf(g.messages[k].msg) != RoleOf(g.messages[k - 1].msg)
  {
  }

  /**
   * The "typing..." indicator (`messages[messages.length - 1]?.role === "user"`):
   * shown exactly when the thread ends in a stored message with role "user".
   */
  function ShowTypingIndicator(messages: seq<Entry>): (shown: bool)
    ensures shown <==>
              messages != [] && messages[|messages| - 1].Stored? && messages[|messages| - 1].role == "user"
  {
    |messages| > 0 && RoleOf(messages[|messages| - 1]) == Some("user")
  }
}
