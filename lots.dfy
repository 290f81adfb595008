/** The editable list of purchase lots: the text the user typed, one row per lot. */
module Lots {
  import opened Options

  /** One purchase lot. Both fields are unvalidated text; they are parsed only when prices are computed. */
  datatype Lot = Lot(price: string, quantity: string)

  /** The two editable fields of a lot. */
  datatype Field = Price | Quantity

  const BlankLot: Lot := Lot("", "")

  function Get(lot: Lot, field: Field): string
  {
    match field
    case Price => lot.price
    case Quantity => lot.quantity
  }

  function Other(field: Field): Field
  {
    match field
    case Price => Quantity
    case Quantity => Price
  }

  /** The lot with `field` set to `value`; the other field is kept. */
  function WithField(lot: Lot, field: Field, value: string): (r: Lot)
    ensures Get(r, field) == value
    ensures Get(r, Other(field)) == Get(lot, Other(field))
  {
    match field
    case Price => lot.(price := value)
    case Quantity => lot.(quantity := value)
  }

  /** The list a fresh calculator starts with, and the list "clear" restores: three blank lots. */
  function DefaultLots(): (r: seq<Lot>)
    ensures |r| == 3
    ensures forall i | 0 <= i < |r| :: r[i] == BlankLot
  {
    [BlankLot, BlankLot, BlankLot]
  }

  /** The list after one field of lot `index` is edited. */
  function ChangedLots(lots: seq<Lot>, index: int, field: Field, value: string): (r: seq<Lot>)
    requires 0 <= index < |lots|
    ensures |r| == |lots|
    ensures Get(r[index], field) == value
    ensures Get(r[index], Other(field)) == Get(lots[index], Other(field))
    ensures forall j | 0 <= j < |lots| && j != index :: r[j] == lots[j]
  {
    lots[index := WithField(lots[index], field, value)]
  }

  /**
   * The elements of `s` whose position is not `index`, in their original order:
   * a filter that tests each element's position against `index`. Positions are
   * shifted by one together with `index` on every step.
   */
  function DropAt<T>(s: seq<T>, index: int): (r: seq<T>)
    ensures 0 <= index < |s| ==> |r| == |s| - 1 && r == s[..index] + s[index + 1..]
    ensures !(0 <= index < |s|) ==> r == s
    decreases |s|
  {
    if s == [] then []
    else (if index == 0 then [] else [s[0]]) + DropAt(s[1..], index - 1)
  }

  /** The calculator's list of lots, which the edit operations replace. */
  class Purchases {
    var lots: seq<Lot>

    /** Start from what the store held for the list, or from three blank lots when it held nothing. */
    constructor (stored: Option<seq<Lot>>)
      ensures stored.Some? ==> lots == stored.value
      ensures stored.None? ==> lots == DefaultLots()
    {
      match stored
      case Some(saved) => lots := saved;
      case None => lots := DefaultLots();
    }

    /** Set one field of lot `index` to `value`. */
    method HandlePurchaseChange(index: int, field: Field, value: string)
      requires 0 <= index < |lots|
      modifies this
      ensures lots == ChangedLots(old(lots), index, field, value)
      ensures |lots| == |old(lots)|
    {
      var newPurchases := lots;
      newPurchases := newPurchases[index := WithField(newPurchases[index], field, value)];
      lots := newPurchases;
    }

    /** Append one blank lot. */
    method AddPurchase()
      modifies this
      ensures lots == old(lots) + [BlankLot]
      ensures |lots| == |old(lots)| + 1 && lots[..|old(lots)|] == old(lots)
    {
      lots := lots + [BlankLot];
    }

    /** Replace the whole list, whatever it held, by three blank lots. */
    method ClearPurchases()
      modifies this
      ensures lots == DefaultLots()
    {
      lots := DefaultLots();
    }

    /** Remove lot `index`, unless it is the only lot left. */
    method RemovePurchase(index: int)
      modifies this
      ensures |old(lots)| > 1 ==> lots == DropAt(old(lots), index)
      ensures |old(lots)| <= 1 ==> lots == old(lots)
      ensures |old(lots)| >= 1 ==> |lots| >= 1
      ensures 0 <= index < |old(lots)| && |old(lots)| > 1 ==> |lots| == |old(lots)| - 1
    {
      if |lots| > 1 {
        var newPurchases := DropAt(lots, index);
        lots := newPurchases;
      }
    }
  }
}
