/**
 * The history sidebar: it shows the history stored under
 * `image-generation-history` in reverse, deletes entries by id (writing the
 * displayed list back), clears everything, and formats ages and prompts.
 */
module HistorySidebar {
  import opened Wrappers
  import opened JsText
  import opened JsArray
  import opened BrowserStorage

  datatype ItemStatus = Completed | Failed | Generating

  datatype ItemSettings = ItemSettings(width: int, height: int, style: string, guidance: real)

  /** An entry as the sidebar reads it; `timestamp` is in milliseconds. */
  datatype Item = Item(id: string, prompt: string, imageUrl: string, timestamp: int, settings: ItemSettings, status: ItemStatus)

  const HistoryKey: string := "image-generation-history"

  const MinuteMillis: nat := 60000
  const HourMillis: nat := 3600000
  const DayMillis: nat := 86400000

  function HasId(id: string): Item -> bool {
    (item: Item) => item.id == id
  }

  /**
   * `formatTimestamp`: the age `now - timestamp` in whole minutes, hours or
   * days, rounded down; under a minute (or in the future) it is "Just now".
   */
  function FormatTimestamp(now: int, timestamp: int): (caption: string)
    ensures caption == "Just now" || (|caption| >= 6 && caption[|caption| - 4..] == " ago" && caption[|caption| - 5] in "mhd")
  {
    var diff := now - timestamp;
    // `/` on a positive divisor rounds down, as `Math.floor` of the quotient does
    var minutes := diff / MinuteMillis;
    var hours := diff / HourMillis;
    var days := diff / DayMillis;
    if minutes < 1 then "Just now"
    else if minutes < 60 then NatToString(minutes) + "m ago"
    else if hours < 24 then NatToString(hours) + "h ago"
    else NatToString(days) + "d ago"
  }

  /** Under a minute of age, and only then, the caption is "Just now". */
  lemma FormatJustNow(now: int, timestamp: int)
    ensures now - timestamp < MinuteMillis <==> FormatTimestamp(now, timestamp) == "Just now"
  {
    var diff := now - timestamp;
    if diff >= MinuteMillis {
      var r := FormatTimestamp(now, timestamp);
      assert r[|r| - 4..] == " ago";
    }
  }

  /** Between a minute and an hour the caption is "<n>m ago" with `n` whole minutes of age. */
  lemma FormatMinutes(now: int, timestamp: int)
    requires MinuteMillis <= now - timestamp < HourMillis
    ensures var n := (now - timestamp) / MinuteMillis;
      && 1 <= n < 60 && n * MinuteMillis <= now - timestamp < (n + 1) * MinuteMillis
      && FormatTimestamp(now, timestamp) == NatToString(n) + "m ago"
      && ParseInt(FormatTimestamp(now, timestamp)) == Int(n)
  {
    var n := (now - timestamp) / MinuteMillis;
    FloorBucket(now - timestamp, MinuteMillis);
    ParseIntOfNatToString(n, "m ago");
  }

  /** Between an hour and a day the caption is "<n>h ago" with `n` whole hours of age. */
  lemma FormatHours(now: int, timestamp: int)
    requires HourMillis <= now - timestamp < DayMillis
    ensures var n := (now - timestamp) / HourMillis;
      && 1 <= n < 24 && n * HourMillis <= now - timestamp < (n + 1) * HourMillis
      && FormatTimestamp(now, timestamp) == NatToString(n) + "h ago"
      && ParseInt(FormatTimestamp(now, timestamp)) == Int(n)
  {
    var n := (now - timestamp) / HourMillis;
    FloorBucket(now - timestamp, HourMillis);
    assert (now - timestamp) / MinuteMillis >= 60;
    ParseIntOfNatToString(n, "h ago");
  }

  /** From a day on the caption is "<n>d ago" with `n` whole days of age. */
  lemma FormatDays(now: int, timestamp: int)
    requires DayMillis <= now - timestamp
    ensures var n := (now - timestamp) / DayMillis;
      && 1 <= n && n * DayMillis <= now - timestamp < (n + 1) * DayMillis
      && FormatTimestamp(now, timestamp) == NatToString(n) + "d ago"
      && ParseInt(FormatTimestamp(now, timestamp)) == Int(n)
  {
    var n := (now - timestamp) / DayMillis;
    FloorBucket(now - timestamp, DayMillis);
    assert (now - timestamp) / MinuteMillis >= 60;
    assert (now - timestamp) / HourMillis >= 24;
    ParseIntOfNatToString(n, "d ago");
  }

  /** The quotient by a positive unit counts the whole units: it is the floor. */
  lemma FloorBucket(diff: int, unit: nat)
    requires unit > 0
    ensures (diff / unit) * unit <= diff < (diff / unit + 1) * unit
  {
    assert diff == (diff / unit) * unit + diff % unit;
  }

  /** `truncatePrompt`: a prompt longer than `maxLength` is cut to it and followed by "...". */
  function TruncatePrompt(prompt: string, maxLength: nat := 60): (r: string)
    ensures |prompt| <= maxLength ==> r == prompt
    ensures |prompt| > maxLength ==> |r| == maxLength + 3 && r[..maxLength] == prompt[..maxLength] && r[maxLength..] == "..."
    ensures |r| <= maxLength + 3
  {
    if |prompt| > maxLength then prompt[..maxLength] + "..." else prompt
  }

  /**
   * A list the sidebar deleted from is stored in displayed order, so loading
   * it again reverses it once more: after a delete and a reload, the list
   * shows the stored order filtered, where before it showed it reversed.
   */
  lemma ReloadAfterDelete(stored: seq<Item>, id: string)
    ensures Reverse(Without(Reverse(stored), HasId(id))) == Without(stored, HasId(id))
  {
    WithoutReverse(stored, HasId(id));
    ReverseReverse(Without(stored, HasId(id)));
  }

  class Sidebar {
    var history: seq<Item>
    const storage: LocalStorage<Item>

    constructor (storage: LocalStorage<Item>)
      ensures history == [] && this.storage == storage
    {
      history := [];
      this.storage := storage;
    }

    /** `loadHistory`: a stored list that decodes is shown reversed; a missing or unreadable one leaves the list as it was. */
    method LoadHistory()
      modifies this
      ensures HistoryKey in storage.slots && storage.slots[HistoryKey].Entries? ==>
        history == Reverse(storage.slots[HistoryKey].items)
      ensures !(HistoryKey in storage.slots && storage.slots[HistoryKey].Entries?) ==> history == old(history)
    {
      if HistoryKey in storage.slots && storage.slots[HistoryKey].Entries? {
        history := Reverse(storage.slots[HistoryKey].items);
      }
    }

    /** `clearHistory`: the key is removed and the list emptied. */
    method ClearHistory()
      modifies this, storage
      ensures history == [] && storage.slots == old(storage.slots) - {HistoryKey}
    {
      storage.RemoveItem(HistoryKey);
      history := [];
    }

    /** `deleteItem`: every entry with the id leaves the list, which is then stored as displayed. */
    method DeleteItem(id: string)
      modifies this, storage
      ensures history == Without(old(history), HasId(id))
      ensures storage.slots == old(storage.slots)[HistoryKey := Entries(history)]
    {
      history := Without(history, HasId(id));
      storage.SetItem(HistoryKey, history);
    }
  }
}
