/** How much evidence a round holds: each source counts once. */
module DeepEvidence {
  import opened Text

  datatype Item = Item(evidenceId: string, source: string, bytes: nat)

  const NUL := 0 as char

  function Key(item: Item): string { item.evidenceId + [NUL] + item.source }

  function Keys(items: seq<Item>): set<string> {
    set item | item in items :: Key(item)
  }

  /** The sizes of the items that come first under their key. */
  function Bytes(items: seq<Item>): nat {
    if items == [] then 0
    else
      var init, last := items[..|items| - 1], items[|items| - 1];
      Bytes(init) + if Key(last) in Keys(init) then 0 else last.bytes
  }

  /** `getDeepEvidenceContentBytes` */
  method ContentBytes(items: seq<Item>) returns (total: nat)
    ensures total == Bytes(items)
  {
    var seen: set<string> := {};
    total := 0;
    var i := 0;
    while i < |items|
      invariant 0 <= i <= |items| && seen == Keys(items[..i]) && total == Bytes(items[..i])
    {
      assert items[..i + 1] == items[..i] + [items[i]] && items[..i + 1][..i] == items[..i];
      if Key(items[i]) !in seen {
        seen := seen + {Key(items[i])};
        total := total + items[i].bytes;
      }
      i := i + 1;
    }
    assert items[..i] == items;
  }

  /** Evidence that is held already adds nothing. */
  lemma {:induction false} HeldAddsNothing(items: seq<Item>, again: seq<Item>)
    requires Keys(again) <= Keys(items)
    ensures Bytes(items + again) == Bytes(items) && Keys(items + again) == Keys(items)
  {
    if again == [] {
      assert items + again == items;
    } else {
      var init, last := again[..|again| - 1], again[|again| - 1];
      assert (items + again)[..|items + again| - 1] == items + init;
      assert last in again && Key(last) in Keys(again);
      assert Keys(init) <= Keys(again);
      HeldAddsNothing(items, init);
      assert Keys(items + again) == Keys(items + init) + {Key(last)};
    }
  }

  lemma NulEndsId(item: Item)
    requires NUL !in item.evidenceId
    ensures Key(item)[|item.evidenceId|] == NUL && forall k | 0 <= k < |item.evidenceId| :: Key(item)[k] != NUL
  {
    assert forall k | 0 <= k < |item.evidenceId| ::
        Key(item)[k] == item.evidenceId[k] && item.evidenceId[k] in item.evidenceId;
  }

  /** The key tells items apart by id and source, if ids hold no NUL. */
  lemma KeyTellsApart(a: Item, b: Item)
    requires NUL !in a.evidenceId && NUL !in b.evidenceId && Key(a) == Key(b)
    ensures a.evidenceId == b.evidenceId && a.source == b.source
  {
    NulEndsId(a);
    NulEndsId(b);
    var m, n := |a.evidenceId|, |b.evidenceId|;
    assert m == n;
    assert a.evidenceId == Key(a)[..m] && a.source == Key(a)[m + 1..];
    assert b.evidenceId == Key(b)[..n] && b.source == Key(b)[n + 1..];
  }
}
