/** The invoice history kept in the browser's local storage under one key:
    reading it back tolerantly, writing it, adding or replacing one entry,
    and clearing it. The store is modelled as the single slot the key names;
    what it holds is classified the way `JSON.parse` and `Array.isArray`
    see it. */
module HistoryStorage {
  import opened Wrappers
  import opened Money

  /** What the key `invoicesHistory` holds: nothing, the empty string, text
      that is not JSON, JSON that is not an array, or an array of entries. */
  datatype Slot<T> = Missing | Blank | Corrupt | NonList | List(entries: seq<T>)

  /** What a load returns and the slot it leaves behind. */
  datatype Loaded<T> = Loaded(history: seq<T>, slot: Slot<T>)

  /** `loadHistory()`: the stored array, or `[]` for anything else. Only text
      that does not parse is removed; a blank or non-array value stays. */
  function LoadHistory<T>(slot: Slot<T>): (r: Loaded<T>)
    ensures r.history != [] ==> slot.List? && r.history == slot.entries
    ensures slot.List? ==> r.history == slot.entries
    ensures slot.Corrupt? ==> r.slot.Missing?
    ensures !slot.Corrupt? ==> r.slot == slot
  {
    match slot
    case Missing => Loaded([], slot)
    case Blank => Loaded([], slot)
    case Corrupt => Loaded([], Missing)
    case NonList => Loaded([], slot)
    case List(entries) => Loaded(entries, slot)
  }

  /** `saveHistory(history)`: the array is stored as JSON. Entries are plain
      data, so the stored text parses back to the same array. */
  function SaveHistory<T>(history: seq<T>): (slot: Slot<T>)
    ensures slot.List? && slot.entries == history
  {
    List(history)
  }

  /** `clearHistory()`: the key is removed. */
  function ClearHistory<T>(): (slot: Slot<T>)
    ensures !slot.List? && !slot.Corrupt?
  {
    Missing
  }

  /** `typeof index === 'number' && index >= 0 && index < history.length`. */
  predicate InRange(index: Option<Num>, length: nat) {
    index.Some? && index.value.Fin? && 0.0 <= index.value.v < length as real
  }

  /** An in-range index that names an element: a whole number. A fractional
      one names an ordinary property of the array, which `JSON.stringify`
      drops. */
  predicate NamesElement(index: Option<Num>, length: nat) {
    InRange(index, length) && index.value.v.Floor as real == index.value.v
  }

  /** The element position an in-range whole index names. */
  function Position(index: Option<Num>, length: nat): (i: nat)
    requires NamesElement(index, length)
    ensures i < length && i as real == index.value.v
  {
    index.value.v.Floor
  }

  /** The history after `history[index] = invoice` or `history.push(invoice)`. */
  function Updated<T>(history: seq<T>, invoice: T, index: Option<Num>): (r: seq<T>)
    ensures NamesElement(index, |history|) ==>
      |r| == |history| && r[Position(index, |history|)] == invoice
      && forall j :: 0 <= j < |r| && j != Position(index, |history|) ==> r[j] == history[j]
    ensures InRange(index, |history|) && !NamesElement(index, |history|) ==> r == history
    ensures !InRange(index, |history|) ==> |r| == |history| + 1 && r[..|history|] == history && r[|history|] == invoice
  {
    if InRange(index, |history|) then
      if NamesElement(index, |history|) then history[Position(index, |history|) := invoice]
      else history
    else history + [invoice]
  }

  /** `addInvoiceToHistory(invoice, index)`: load, replace or append, save,
      and return the new history. */
  function AddInvoiceToHistory<T>(slot: Slot<T>, invoice: T, index: Option<Num>): (r: Loaded<T>)
    ensures r.slot == SaveHistory(r.history)
    ensures r.history == Updated(LoadHistory(slot).history, invoice, index)
  {
    var history := LoadHistory(slot).history;
    var updated := Updated(history, invoice, index);
    Loaded(updated, SaveHistory(updated))
  }

  /** Nothing stored, a blank value and a non-array value all load as the
      empty history and are left as they are. */
  lemma LoadWithoutList<T>(slot: Slot<T>)
    requires !slot.List?
    ensures LoadHistory(slot).history == []
    ensures slot.Corrupt? <==> LoadHistory(slot).slot != slot
  {
  }

  /** What is saved is what is loaded next, and loading does not disturb it. */
  lemma SaveThenLoad<T>(history: seq<T>)
    ensures LoadHistory(SaveHistory(history)) == Loaded(history, SaveHistory(history))
  {
  }

  /** After a clear the history is empty. */
  lemma ClearThenLoad<T>()
    ensures LoadHistory(ClearHistory<T>()) == Loaded([], ClearHistory<T>())
  {
  }

  /** Loading twice gives the same history as loading once: the clean-up of
      unreadable text happens at most once and loses nothing readable. */
  lemma LoadTwice<T>(slot: Slot<T>)
    ensures LoadHistory(LoadHistory(slot).slot).history == LoadHistory(slot).history
    ensures LoadHistory(LoadHistory(slot).slot).slot == LoadHistory(slot).slot
  {
  }

  /** The history returned by an add is the one the next load sees. */
  lemma AddThenLoad<T>(slot: Slot<T>, invoice: T, index: Option<Num>)
    ensures var r := AddInvoiceToHistory(slot, invoice, index);
      LoadHistory(r.slot).history == r.history
  {
  }

  /** Replacing at a whole in-range index changes that entry only: the old
      entry leaves the multiset of entries and the invoice joins it. */
  lemma {:induction false} ReplaceSwapsOneEntry<T>(history: seq<T>, invoice: T, index: Option<Num>)
    requires NamesElement(index, |history|)
    ensures var i := Position(index, |history|);
      multiset(Updated(history, invoice, index)) == multiset(history) - multiset{history[i]} + multiset{invoice}
  {
    var i := Position(index, |history|);
    var r := Updated(history, invoice, index);
    assert history == history[..i] + [history[i]] + history[i + 1..];
    assert r == history[..i] + [invoice] + history[i + 1..];
  }

  /** Replacing the entry at an index with itself changes nothing, and
      replacing twice at the same index is replacing once. */
  lemma ReplaceIdempotent<T>(history: seq<T>, invoice: T, index: Option<Num>)
    requires NamesElement(index, |history|)
    ensures Updated(history, history[Position(index, |history|)], index) == history
    ensures Updated(Updated(history, invoice, index), invoice, index) == Updated(history, invoice, index)
  {
  }

  /** Appending keeps every earlier entry in place and grows the history by
      exactly the invoice. */
  lemma AppendKeepsPrefix<T>(history: seq<T>, invoice: T, index: Option<Num>)
    requires !InRange(index, |history|)
    ensures Updated(history, invoice, index) == history + [invoice]
  {
    var r := Updated(history, invoice, index);
    assert r == r[..|history|] + [r[|history|]];
  }

  /** A missing index, a negative one, NaN and an index at or past the end
      all append. */
  lemma OutOfRangeIndexes(length: nat, v: real)
    ensures !InRange(None, length)
    ensures v < 0.0 ==> !InRange(Some(Fin(v)), length)
    ensures v >= length as real ==> !InRange(Some(Fin(v)), length)
    ensures !InRange(Some(NaN), length) && !InRange(Some(PosInf), length) && !InRange(Some(NegInf), length)
  {
  }
}
