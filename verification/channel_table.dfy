/**
  The server's per-channel "initialized" dictionary. A Python dictionary keeps
  its keys in insertion order, so it is modelled as a sequence of entries
  with pairwise different channels; assigning to an existing key replaces the
  entry in place, assigning to a new key appends one.
 */
module ChannelTable {
  import opened Wrappers

  datatype Entry = Entry(channel: int, initialized: bool)

  /** Every channel occurs at most once. */
  predicate UniqueKeys(entries: seq<Entry>)
  {
    forall i, j :: 0 <= i < j < |entries| ==> entries[i].channel != entries[j].channel
  }

  /** `channel` is a key of the dictionary. */
  predicate HasKey(entries: seq<Entry>, channel: int)
  {
    exists k :: 0 <= k < |entries| && entries[k].channel == channel
  }

  /** The position of `channel`'s entry, or -1 when it has none. */
  function IndexOf(entries: seq<Entry>, channel: int): (i: int)
    ensures -1 <= i < |entries|
    ensures i == -1 <==> !HasKey(entries, channel)
    ensures 0 <= i ==> entries[i].channel == channel
    ensures 0 <= i ==> forall k :: 0 <= k < i ==> entries[k].channel != channel
  {
    if |entries| == 0 then -1
    else if entries[|entries| - 1].channel == channel && IndexOf(entries[..|entries| - 1], channel) == -1 then
      |entries| - 1
    else
      IndexOf(entries[..|entries| - 1], channel)
  }

  /** Subscription: the flag stored for `channel`, `None` for a missing key. */
  function Lookup(entries: seq<Entry>, channel: int): (r: Option<bool>)
    ensures r.None? <==> !HasKey(entries, channel)
    ensures r.Some? ==> exists k :: 0 <= k < |entries| && entries[k] == Entry(channel, r.value)
  {
    var i := IndexOf(entries, channel);
    if i == -1 then None else Some(entries[i].initialized)
  }

  /** `dict.get(channel, False)`. */
  function Get(entries: seq<Entry>, channel: int): (flag: bool)
    ensures flag <==> Lookup(entries, channel) == Some(true)
  {
    match Lookup(entries, channel)
    case None => false
    case Some(flag) => flag
  }

  /** `dict[channel] = flag`: replace in place, or append a new key at the end. */
  function Store(entries: seq<Entry>, channel: int, flag: bool): (r: seq<Entry>)
    ensures HasKey(entries, channel) ==> |r| == |entries|
    ensures !HasKey(entries, channel) ==> r == entries + [Entry(channel, flag)]
    ensures forall k :: 0 <= k < |entries| ==> r[k].channel == entries[k].channel
  {
    var i := IndexOf(entries, channel);
    if i == -1 then entries + [Entry(channel, flag)] else entries[i := Entry(channel, flag)]
  }

  /** Storing and reading back the same key gives the stored flag; every other key keeps
      its flag; the keys stay pairwise different. */
  lemma {:induction false} StoreLookup(entries: seq<Entry>, channel: int, flag: bool, other: int)
    requires UniqueKeys(entries)
    ensures UniqueKeys(Store(entries, channel, flag))
    ensures Lookup(Store(entries, channel, flag), channel) == Some(flag)
    ensures other != channel ==> Lookup(Store(entries, channel, flag), other) == Lookup(entries, other)
  {
    var r := Store(entries, channel, flag);
    var i := IndexOf(entries, channel);
    assert r[if i == -1 then |entries| else i] == Entry(channel, flag);
    UniqueLookup(r, if i == -1 then |entries| else i);
    if other != channel {
      if HasKey(entries, other) {
        var j := IndexOf(entries, other);
        assert r[j] == entries[j];
        UniqueLookup(r, j);
        UniqueLookup(entries, j);
      }
    }
  }

  /** With pairwise different keys, looking up the channel of entry `k` finds entry `k`. */
  lemma UniqueLookup(entries: seq<Entry>, k: int)
    requires UniqueKeys(entries)
    requires 0 <= k < |entries|
    ensures IndexOf(entries, entries[k].channel) == k
    ensures Lookup(entries, entries[k].channel) == Some(entries[k].initialized)
  {
  }
}
