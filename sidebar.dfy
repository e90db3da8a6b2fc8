/**
 * The chat list: the avatar colour chosen from a chat's title, the relative
 * date shown under each entry, the title and initial fallbacks, and the
 * single pending delete confirmation. Locale formatting of a date is left
 * abstract: a label keeps the date it formats.
 */
module Sidebar {
  import opened Wrappers
  import opened ClientData

  const AvatarColors: seq<string> := [
    "from-blue-500 to-cyan-500",
    "from-purple-500 to-pink-500",
    "from-orange-500 to-red-500",
    "from-green-500 to-emerald-500",
    "from-indigo-500 to-purple-600",
    "from-pink-500 to-rose-500",
    "from-amber-500 to-yellow-500",
    "from-teal-500 to-cyan-500"
  ]

  /** `s.charCodeAt(0)`: the first UTF-16 code unit, so the high surrogate for a character beyond U+FFFF. */
  function FirstCodeUnit(s: string): (u: nat)
    requires |s| > 0
    ensures u < 0x1_0000
    ensures (s[0] as int) < 0x1_0000 ==> u == s[0] as int
    ensures (s[0] as int) >= 0x1_0000 ==> 0xD800 <= u < 0xDC00
    ensures (s[0] as int) >= 0x1_0000 ==>
              0x1_0000 + (u - 0xD800) * 0x400 <= s[0] as int < 0x1_0000 + (u - 0xD800 + 1) * 0x400
  {
    var c := s[0] as int;
    if c < 0x1_0000 then c else 0xD800 + (c - 0x1_0000) / 0x400
  }

  /** The index `getAvatarColor` uses: a missing or empty title gives 0, else the first code unit mod 8. */
  function AvatarIndex(title: Option<string>): (k: nat)
    ensures k < |AvatarColors|
    ensures title.None? || title.value == "" ==> k == 0
    ensures title.Some? && title.value != "" ==> k == FirstCodeUnit(title.value) % |AvatarColors|
  {
    if title.None? || title.value == "" then 0 else FirstCodeUnit(title.value) % |AvatarColors|
  }

  /** `getAvatarColor(title)`: always one of the eight gradients. */
  function AvatarColor(title: Option<string>): (c: string)
    ensures c in AvatarColors
  {
    AvatarColors[AvatarIndex(title)]
  }

  /** Titles starting with the same character get the same colour. */
  lemma SameInitialSameColor(a: string, b: string)
    requires a != "" && b != "" && a[0] == b[0]
    ensures AvatarColor(Some(a)) == AvatarColor(Some(b))
  {
  }

  const MsPerDay: nat := 1000 * 60 * 60 * 24

  function Abs(x: int): nat
  {
    if x < 0 then -x else x
  }

  /** `Math.floor(Math.abs(now - date) / 86400000)`. */
  function DiffDays(date: int, now: int): nat
  {
    Abs(now - date) / MsPerDay
  }

  /** Which of the four forms `formatDate` picks. */
  datatype Bucket = TimeOfDay | Yesterday | Weekday | MonthDay

  function BucketOf(date: int, now: int): (b: Bucket)
    ensures b == TimeOfDay <==> Abs(now - date) < MsPerDay
    ensures b == Yesterday <==> MsPerDay <= Abs(now - date) < 2 * MsPerDay
    ensures b == Weekday <==> 2 * MsPerDay <= Abs(now - date) < 7 * MsPerDay
    ensures b == MonthDay <==> 7 * MsPerDay <= Abs(now - date)
  {
    var d := DiffDays(date, now);
    if d == 0 then TimeOfDay
    else if d == 1 then Yesterday
    else if d < 7 then Weekday
    else MonthDay
  }

  /** The label `formatDate` renders: the locale text itself is abstract, so a label keeps its date. */
  datatype DateLabel = TimeLabel(at: int) | YesterdayLabel | WeekdayLabel(at: int) | MonthDayLabel(at: int)

  /**
   * `formatDate(date)` against the current time `now`: the time of day under
   * a day apart, "Yesterday" from one to two days apart, the weekday under
   * seven days and the month and day beyond; every label but "Yesterday"
   * formats `date` itself.
   */
  function FormatDate(date: int, now: int): (l: DateLabel)
    ensures l.TimeLabel? <==> BucketOf(date, now) == TimeOfDay
    ensures l.YesterdayLabel? <==> BucketOf(date, now) == Yesterday
    ensures l.WeekdayLabel? <==> BucketOf(date, now) == Weekday
    ensures l.MonthDayLabel? <==> BucketOf(date, now) == MonthDay
    ensures !l.YesterdayLabel? ==> l.at == date
  {
    match BucketOf(date, now)
    case TimeOfDay => TimeLabel(date)
    case Yesterday => YesterdayLabel
    case Weekday => WeekdayLabel(date)
    case MonthDay => MonthDayLabel(date)
  }

  /** The distance is absolute, so a date in the future is labelled like the past date as far away. */
  lemma FutureLikePast(now: int, d: nat)
    ensures BucketOf(now + d, now) == BucketOf(now - d, now)
  {
  }

  /** The date an entry shows: `createdAt || updatedAt || new Date()`. */
  function ShownDate(e: ListEntry, now: int): (t: int)
    ensures e.createdAt.Some? ==> t == e.createdAt.value
    ensures e.createdAt.None? && e.updatedAt.Some? ==> t == e.updatedAt.value
    ensures e.createdAt.None? && e.updatedAt.None? ==> t == now
  {
    if e.createdAt.Some? then e.createdAt.value
    else if e.updatedAt.Some? then e.updatedAt.value
    else now
  }

  /** An entry with no dates at all (the one prepended after `/new`) shows the time of day. */
  lemma UndatedEntryShowsTime(e: ListEntry, now: int)
    requires e.createdAt.None? && e.updatedAt.None?
    ensures FormatDate(ShownDate(e, now), now) == TimeLabel(now)
  {
  }

  /** `chat.title || "New Chat"`. */
  function DisplayTitle(title: Option<string>): (t: string)
    ensures t != ""
    ensures title.Some? && title.value != "" ==> t == title.value
    ensures title.None? || title.value == "" ==> t == "New Chat"
  {
    if title.None? || title.value == "" then "New Chat" else title.value
  }

  /** `toUpperCase` on one character, for the ASCII letters. */
  function UpperAscii(c: char): (u: char)
    ensures 'a' <= c <= 'z' ==> u as int == c as int - 32
    ensures !('a' <= c <= 'z') ==> u == c
  {
    if 'a' <= c <= 'z' then (c as int - 32) as char else c
  }

  /** `chat.title ? chat.title.charAt(0).toUpperCase() : 'N'`. */
  function Initial(title: Option<string>): (s: string)
    ensures |s| == 1
    ensures title.None? || title.value == "" ==> s == "N"
    ensures title.Some? && title.value != "" ==> s == [UpperAscii(title.value[0])]
  {
    if title.None? || title.value == "" then "N" else [UpperAscii(title.value[0])]
  }

  /** The initial is the upper-cased first letter of the title shown beside it. */
  lemma InitialMatchesShownTitle(title: Option<string>)
    ensures Initial(title) == [UpperAscii(DisplayTitle(title)[0])]
  {
  }

  /**
   * `showDeleteConfirm`: `null` (None), or the `_id` of the entry whose
   * delete icon was clicked. One field, so at most one entry is pending.
   */
  class DeleteConfirm {
    var pending: Option<Option<ChatId>>

    constructor ()
      ensures pending == None
    {
      pending := None;
    }

    /** An entry shows the Delete/Cancel pair exactly when its `_id` is the pending one. */
    predicate Confirming(e: ListEntry)
      reads this
    {
      pending == Some(e.id)
    }

    /** Clicking an entry's delete icon: that entry becomes the only pending one. */
    method AskDelete(e: ListEntry)
      modifies this
      ensures pending == Some(e.id)
      ensures forall other: ListEntry :: Confirming(other) <==> other.id == e.id
    {
      pending := Some(e.id);
    }

    /** "Delete": asks the page to delete the entry's id, then clears the pending id. */
    method Confirm(e: ListEntry) returns (deleteRequest: Option<ChatId>)
      requires Confirming(e)
      modifies this
      ensures deleteRequest == e.id
      ensures pending == None
    {
      deleteRequest := e.id;
      pending := None;
    }

    /** "Cancel": clears the pending id and deletes nothing. */
    method Cancel()
      modifies this
      ensures pending == None
    {
      pending := None;
    }
  }
}
