/**
 * The channel ordering of the sales tables: rows are shown in the fixed order of
 * `CHANNEL_ORDER`, channels the order does not know last, and rows of the same channel
 * rank in the order they arrived.
 */
module SalesData {
  import opened Wrappers
  import opened JsArray
  import opened StableSort

  /** One row of a sales response: the channel name and its amounts. */
  datatype SalesChannelItem = SalesChannelItem(name: string, salesTag: Option<real>, actualSales: Option<real>, yoy: Option<real>)

  const CHANNEL_ORDER: seq<string> :=
    ["플래그쉽", "백화점", "대리점", "직영(가두)", "온라인(직)", "온라인(제휴)", "면세점", "RF", "사입", "기타"]

  /** The rank of channels that `CHANNEL_ORDER` does not list. */
  const UNKNOWN_RANK := 999

  /** `CHANNEL_ORDER.indexOf(name)`, with -1 replaced by 999. */
  function ChannelRank(name: string): (r: int)
    ensures 0 <= r < |CHANNEL_ORDER| || r == UNKNOWN_RANK
    ensures r == UNKNOWN_RANK <==> name !in CHANNEL_ORDER
    ensures r != UNKNOWN_RANK ==> CHANNEL_ORDER[r] == name && name !in CHANNEL_ORDER[..r]
  {
    match FindIndex(CHANNEL_ORDER, (n: string) => n == name)
    case Some(i) => i
    case None => UNKNOWN_RANK
  }

  /** The comparator's key: the rank of an item's channel. */
  function ItemRank(): SalesChannelItem -> int {
    (item: SalesChannelItem) => ChannelRank(item.name)
  }

  /** `[...data].sort((a, b) => rank(a) - rank(b))`: a sorted copy; `data` itself is a value and stays as it is. */
  function SortByChannelOrder(data: seq<SalesChannelItem>): (r: seq<SalesChannelItem>)
    ensures |r| == |data|
  {
    SortByKey(data, ItemRank())
  }

  /** The channel names of `CHANNEL_ORDER` are pairwise distinct. */
  lemma ChannelOrderDistinct()
    ensures Distinct(CHANNEL_ORDER)
  {
  }

  /**
   * The result is a permutation of the input, ordered by rank, and rows of equal rank keep their
   * input order; sorting it again changes nothing.
   */
  lemma SortByChannelOrderSpec(data: seq<SalesChannelItem>)
    ensures multiset(SortByChannelOrder(data)) == multiset(data)
    ensures forall i, j :: 0 <= i < j < |data| ==>
      ChannelRank(SortByChannelOrder(data)[i].name) <= ChannelRank(SortByChannelOrder(data)[j].name)
    ensures forall k :: WithKey(SortByChannelOrder(data), ItemRank(), k) == WithKey(data, ItemRank(), k)
    ensures SortByChannelOrder(SortByChannelOrder(data)) == SortByChannelOrder(data)
  {
    var key := ItemRank();
    SortByKeyPermutes(data, key);
    SortByKeySorted(data, key);
    forall k ensures WithKey(SortByKey(data, key), key, k) == WithKey(data, key, k) {
      SortByKeyStable(data, key, k);
    }
    SortByKeyIdempotent(SortByKey(data, key), key);
  }

  /** Rows of channels the order does not know come after every row of a known channel. */
  lemma UnknownChannelsLast(data: seq<SalesChannelItem>, i: nat, j: nat)
    requires i < j < |data|
    requires SortByChannelOrder(data)[i].name !in CHANNEL_ORDER
    ensures SortByChannelOrder(data)[j].name !in CHANNEL_ORDER
  {
    SortByChannelOrderSpec(data);
  }

  /** Two rows of different known channels come in the order `CHANNEL_ORDER` lists the channels. */
  lemma KnownChannelsInOrder(data: seq<SalesChannelItem>, i: nat, j: nat, a: nat, b: nat)
    requires i < j < |data| && a < |CHANNEL_ORDER| && b < |CHANNEL_ORDER|
    requires SortByChannelOrder(data)[i].name == CHANNEL_ORDER[a]
    requires SortByChannelOrder(data)[j].name == CHANNEL_ORDER[b]
    ensures a <= b
  {
    SortByChannelOrderSpec(data);
    ChannelOrderDistinct();
    var r := SortByChannelOrder(data);
    assert ChannelRank(r[i].name) == a;
    assert ChannelRank(r[j].name) == b;
  }

  /** A list already in channel order comes back unchanged. */
  lemma SortedUnchanged(data: seq<SalesChannelItem>)
    requires forall i, j :: 0 <= i < j < |data| ==> ChannelRank(data[i].name) <= ChannelRank(data[j].name)
    ensures SortByChannelOrder(data) == data
  {
    SortByKeyIdempotent(data, ItemRank());
  }
}
