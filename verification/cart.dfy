/**
 * The cart screen (src/CartDetails.tsx): an ordered list of cart records handed over by the
 * navigation from the header's cart icon, a selection of composite keys `"<cartId>-<productId>"`,
 * quantity edits that keep each record's `totalQuantity` and `totalPrice` up to date incrementally,
 * and deletion of a line item once the cart service has acknowledged it.
 */
module Cart {
  import opened Wrappers

  /** One entry of a record's `productQty` object. A record's entries are kept in the object's key order. */
  datatype Line = Line(productId: string, qty: int)

  datatype CartRecord = CartRecord(
    id: string,
    userId: Option<int>,
    productQty: seq<Line>,
    totalQuantity: int,
    totalPrice: int,
    productName: Option<string>,
    productDesc: Option<string>,
    productPrice: Option<int>,
    prodCat: Option<string>,
    imageURL: Option<string>)

  // ---------------------------------------------------------------------------------------------
  // The `productQty` object

  predicate HasKey(lines: seq<Line>, pid: string) {
    exists i :: 0 <= i < |lines| && lines[i].productId == pid
  }

  /** Keys of a JavaScript object are distinct; every `productQty` the client handles satisfies this. */
  predicate DistinctKeys(lines: seq<Line>) {
    forall i, j :: 0 <= i < j < |lines| ==> lines[i].productId != lines[j].productId
  }

  /** `Object.keys(productQty)`, in order. */
  function Keys(lines: seq<Line>): seq<string> {
    seq(|lines|, i requires 0 <= i < |lines| => lines[i].productId)
  }

  /** `productQty[pid]`: `None` is `undefined`. */
  function QtyOf(lines: seq<Line>, pid: string): (q: Option<int>)
    ensures q.Some? <==> HasKey(lines, pid)
    ensures DistinctKeys(lines) ==>
              forall i :: 0 <= i < |lines| && lines[i].productId == pid ==> q == Some(lines[i].qty)
  {
    if lines == [] then None
    else if lines[0].productId == pid then Some(lines[0].qty)
    else
      assert forall i :: 1 <= i < |lines| ==> lines[1..][i - 1] == lines[i];
      QtyOf(lines[1..], pid)
  }

  lemma DistinctCons(x: Line, t: seq<Line>)
    ensures DistinctKeys([x] + t) <==> !HasKey(t, x.productId) && DistinctKeys(t)
  {
    var s := [x] + t;
    assert forall i :: 0 <= i < |t| ==> s[i + 1] == t[i];
    if HasKey(t, x.productId) {
      var i :| 0 <= i < |t| && t[i].productId == x.productId;
      assert s[0].productId == s[i + 1].productId;
    }
  }

  /**
   * `{...productQty, [pid]: v}` for a key the record already holds: it keeps its position. The cart's
   * handlers only ever overwrite existing keys; a new key is appended here, which matches JavaScript's
   * key order for non-numeric keys only (integer-like keys are ordered first, ascending).
   */
  function SetQty(lines: seq<Line>, pid: string, v: int): (r: seq<Line>)
    ensures HasKey(lines, pid) ==> |r| == |lines|
  {
    if lines == [] then [Line(pid, v)]
    else if lines[0].productId == pid then [Line(pid, v)] + lines[1..]
    else
      assert HasKey(lines, pid) ==> HasKey(lines[1..], pid);
      [lines[0]] + SetQty(lines[1..], pid, v)
  }

  /** After the spread, `pid` reads `v` and every other key reads as before. */
  lemma {:induction false} SetQtyLookup(lines: seq<Line>, pid: string, v: int, p: string)
    ensures QtyOf(SetQty(lines, pid, v), p) == if p == pid then Some(v) else QtyOf(lines, p)
  {
    if lines != [] && lines[0].productId != pid {
      SetQtyLookup(lines[1..], pid, v, p);
      assert SetQty(lines, pid, v)[1..] == SetQty(lines[1..], pid, v);
    }
  }

  /** Overwriting a present key changes no key: entry `i` keeps its product id. */
  lemma {:induction false} SetQtySameIds(lines: seq<Line>, pid: string, v: int)
    requires HasKey(lines, pid)
    ensures |SetQty(lines, pid, v)| == |lines|
    ensures forall i :: 0 <= i < |lines| ==> SetQty(lines, pid, v)[i].productId == lines[i].productId
  {
    var r := SetQty(lines, pid, v);
    if lines[0].productId != pid {
      assert HasKey(lines[1..], pid);
      SetQtySameIds(lines[1..], pid, v);
      assert r == [lines[0]] + SetQty(lines[1..], pid, v);
    }
  }

  /** Overwriting a present key keeps the key order, and so the keys' distinctness. */
  lemma SetQtyKeys(lines: seq<Line>, pid: string, v: int)
    requires HasKey(lines, pid)
    ensures Keys(SetQty(lines, pid, v)) == Keys(lines)
    ensures DistinctKeys(lines) ==> DistinctKeys(SetQty(lines, pid, v))
  {
    SetQtySameIds(lines, pid, v);
  }

  /** `const { [pid]: _, ...rest } = productQty`: the remaining entries, in order. */
  function RemoveKey(lines: seq<Line>, pid: string): (r: seq<Line>)
    ensures |r| <= |lines|
  {
    if lines == [] then []
    else (if lines[0].productId == pid then [] else [lines[0]]) + RemoveKey(lines[1..], pid)
  }

  /** After the removal `pid` reads `undefined` and every other key reads as before. */
  lemma {:induction false} RemoveKeyLookup(lines: seq<Line>, pid: string, p: string)
    ensures QtyOf(RemoveKey(lines, pid), p) == if p == pid then None else QtyOf(lines, p)
  {
    if lines != [] {
      RemoveKeyLookup(lines[1..], pid, p);
      var r := RemoveKey(lines, pid);
      if lines[0].productId != pid {
        assert r[1..] == RemoveKey(lines[1..], pid);
      } else {
        assert r == RemoveKey(lines[1..], pid);
      }
    }
  }

  lemma RemoveKeyLookupAll(lines: seq<Line>, pid: string)
    ensures !HasKey(RemoveKey(lines, pid), pid)
    ensures forall p :: p != pid ==> QtyOf(RemoveKey(lines, pid), p) == QtyOf(lines, p)
  {
    RemoveKeyLookup(lines, pid, pid);
    forall p | p != pid ensures QtyOf(RemoveKey(lines, pid), p) == QtyOf(lines, p) {
      RemoveKeyLookup(lines, pid, p);
    }
  }

  /** Removing a key keeps the remaining keys distinct. */
  lemma {:induction false} RemoveKeyDistinct(lines: seq<Line>, pid: string)
    requires DistinctKeys(lines)
    ensures DistinctKeys(RemoveKey(lines, pid))
  {
    if lines != [] {
      DistinctCons(lines[0], lines[1..]);
      assert lines == [lines[0]] + lines[1..];
      RemoveKeyDistinct(lines[1..], pid);
      var t := RemoveKey(lines[1..], pid);
      if lines[0].productId != pid {
        RemoveKeyLookup(lines[1..], pid, lines[0].productId);
        DistinctCons(lines[0], t);
      }
    }
  }

  /** With distinct keys, the removal takes out exactly the one entry for `pid` and keeps the order of the rest. */
  lemma {:induction false} RemoveKeyAt(lines: seq<Line>, pid: string, i: nat)
    requires DistinctKeys(lines) && i < |lines| && lines[i].productId == pid
    ensures RemoveKey(lines, pid) == lines[..i] + lines[i + 1..]
  {
    DistinctCons(lines[0], lines[1..]);
    assert lines == [lines[0]] + lines[1..];
    if i == 0 {
      RemoveKeyAbsent(lines[1..], pid);
    } else {
      RemoveKeyAt(lines[1..], pid, i - 1);
      assert lines[1..][..i - 1] + lines[1..][i..] == lines[1..i] + lines[i + 1..];
      assert lines[..i] == [lines[0]] + lines[1..i];
    }
  }

  /** Removing an absent key returns the entries unchanged. */
  lemma {:induction false} RemoveKeyAbsent(lines: seq<Line>, pid: string)
    requires !HasKey(lines, pid)
    ensures RemoveKey(lines, pid) == lines
  {
    if lines != [] {
      assert forall i :: 0 <= i < |lines[1..]| ==> lines[1..][i] == lines[i + 1];
      RemoveKeyAbsent(lines[1..], pid);
      assert lines == [lines[0]] + lines[1..];
    }
  }

  lemma NoKeysMeansEmpty(lines: seq<Line>)
    ensures lines == [] <==> forall p :: !HasKey(lines, p)
  {
    if lines != [] {
      assert HasKey(lines, lines[0].productId);
    }
  }

  // ---------------------------------------------------------------------------------------------
  // Aggregates

  /** `cart.productPrice || 0`: the record's single unit price. */
  function UnitPrice(c: CartRecord): int {
    c.productPrice.GetOr(0)
  }

  /** Sum of the quantities of the line items. */
  function QtySum(lines: seq<Line>): int {
    if lines == [] then 0 else lines[0].qty + QtySum(lines[1..])
  }

  /** Sum over the line items of `qty × unit`. */
  function PriceSum(lines: seq<Line>, unit: int): int {
    if lines == [] then 0 else unit * lines[0].qty + PriceSum(lines[1..], unit)
  }

  /** The record's aggregate fields agree with its line items. */
  predicate Consistent(c: CartRecord) {
    && c.totalQuantity == QtySum(c.productQty)
    && c.totalPrice == PriceSum(c.productQty, UnitPrice(c))
  }

  predicate AllConsistent(rs: seq<CartRecord>) {
    forall i :: 0 <= i < |rs| ==> Consistent(rs[i])
  }

  predicate WellFormed(rs: seq<CartRecord>) {
    forall i :: 0 <= i < |rs| ==> DistinctKeys(rs[i].productQty)
  }

  /** Changing one line's quantity from `q` to `v` moves both sums by exactly that change. */
  lemma {:induction false} SetQtySums(lines: seq<Line>, pid: string, v: int, unit: int)
    requires DistinctKeys(lines) && HasKey(lines, pid)
    ensures QtySum(SetQty(lines, pid, v)) == QtySum(lines) - QtyOf(lines, pid).value + v
    ensures PriceSum(SetQty(lines, pid, v), unit) ==
            PriceSum(lines, unit) - unit * QtyOf(lines, pid).value + unit * v
  {
    DistinctCons(lines[0], lines[1..]);
    assert lines == [lines[0]] + lines[1..];
    if lines[0].productId != pid {
      assert HasKey(lines[1..], pid);
      SetQtySums(lines[1..], pid, v, unit);
      var r := SetQty(lines, pid, v);
      assert r[1..] == SetQty(lines[1..], pid, v);
    }
  }

  /** Removing a present line subtracts exactly its quantity and its price contribution. */
  lemma {:induction false} RemoveKeySums(lines: seq<Line>, pid: string, unit: int)
    requires DistinctKeys(lines) && HasKey(lines, pid)
    ensures QtySum(RemoveKey(lines, pid)) == QtySum(lines) - QtyOf(lines, pid).value
    ensures PriceSum(RemoveKey(lines, pid), unit) == PriceSum(lines, unit) - unit * QtyOf(lines, pid).value
  {
    DistinctCons(lines[0], lines[1..]);
    assert lines == [lines[0]] + lines[1..];
    if lines[0].productId == pid {
      RemoveKeyAbsent(lines[1..], pid);
      assert RemoveKey(lines, pid) == lines[1..];
    } else {
      assert HasKey(lines[1..], pid);
      RemoveKeySums(lines[1..], pid, unit);
      var r := RemoveKey(lines, pid);
      assert r[1..] == RemoveKey(lines[1..], pid);
    }
  }

  // ---------------------------------------------------------------------------------------------
  // Increase and decrease

  /**
   * `after` is `before` with the quantity of line `pid` moved by `delta`, `totalQuantity` moved by
   * `delta` and `totalPrice` moved by `delta` unit prices; every other line and field is as it was.
   */
  ghost predicate LineAdjusted(before: CartRecord, after: CartRecord, pid: string, delta: int) {
    && QtyOf(before.productQty, pid).Some?
    && QtyOf(after.productQty, pid) == Some(QtyOf(before.productQty, pid).value + delta)
    && (forall p :: p != pid ==> QtyOf(after.productQty, p) == QtyOf(before.productQty, p))
    && Keys(after.productQty) == Keys(before.productQty)
    && after.totalQuantity == before.totalQuantity + delta
    && after.totalPrice == before.totalPrice + delta * UnitPrice(before)
    && after == before.(productQty := after.productQty, totalQuantity := after.totalQuantity,
                        totalPrice := after.totalPrice)
  }

  /** The record with line `pid` set to its quantity plus `delta`, and both totals moved accordingly. */
  function Adjusted(c: CartRecord, pid: string, delta: int): (r: CartRecord)
    requires HasKey(c.productQty, pid)
  {
    var unitPrice := UnitPrice(c);
    c.(productQty := SetQty(c.productQty, pid, QtyOf(c.productQty, pid).value + delta),
       totalQuantity := c.totalQuantity + delta,
       totalPrice := c.totalPrice + delta * unitPrice)
  }

  /** `Adjusted` changes exactly the one line and the two totals. */
  lemma AdjustedSpec(c: CartRecord, pid: string, delta: int)
    requires HasKey(c.productQty, pid)
    ensures LineAdjusted(c, Adjusted(c, pid, delta), pid, delta)
  {
    var v := QtyOf(c.productQty, pid).value + delta;
    var lines := SetQty(c.productQty, pid, v);
    var a := Adjusted(c, pid, delta);
    assert a.productQty == lines;
    SetQtyLookup(c.productQty, pid, v, pid);
    assert QtyOf(lines, pid) == Some(v);
    forall p | p != pid ensures QtyOf(lines, p) == QtyOf(c.productQty, p) {
      SetQtyLookup(c.productQty, pid, v, p);
    }
    SetQtyKeys(c.productQty, pid, v);
    assert Keys(lines) == Keys(c.productQty);
    assert a == c.(productQty := lines, totalQuantity := a.totalQuantity, totalPrice := a.totalPrice);
  }

  /** `Adjusted` keeps a record's keys distinct and its totals consistent with its lines. */
  lemma AdjustedConsistent(c: CartRecord, pid: string, delta: int)
    requires HasKey(c.productQty, pid) && DistinctKeys(c.productQty) && Consistent(c)
    ensures DistinctKeys(Adjusted(c, pid, delta).productQty) && Consistent(Adjusted(c, pid, delta))
  {
    var q := QtyOf(c.productQty, pid).value;
    var unit := UnitPrice(c);
    var v := q + delta;
    SetQtyKeys(c.productQty, pid, v);
    SetQtySums(c.productQty, pid, v, unit);
    assert unit * v - unit * q == delta * unit by {
      assert unit * v == unit * q + unit * delta;
    }
  }

  /** The callers pass a product key of a displayed line, so every matching record has that line. */
  predicate KeyInMatching(rs: seq<CartRecord>, cartId: string, pid: string) {
    forall i :: 0 <= i < |rs| && rs[i].id == cartId ==> HasKey(rs[i].productQty, pid)
  }

  /** `prev.map(...)` in `handleIncrease`: every record whose id matches gains one unit of `pid`. */
  function IncreaseAll(rs: seq<CartRecord>, cartId: string, pid: string): (r: seq<CartRecord>)
    requires KeyInMatching(rs, cartId, pid)
    ensures |r| == |rs|
  {
    seq(|rs|, i requires 0 <= i < |rs| => if rs[i].id == cartId then Adjusted(rs[i], pid, 1) else rs[i])
  }

  /**
   * Increase on a matching record adds 1 to the line, 1 to `totalQuantity` and one unit price to
   * `totalPrice`; every other record is unchanged; and both aggregate equalities are preserved.
   */
  lemma IncreaseSpec(rs: seq<CartRecord>, cartId: string, pid: string)
    requires KeyInMatching(rs, cartId, pid)
    ensures forall i :: 0 <= i < |rs| && rs[i].id != cartId ==> IncreaseAll(rs, cartId, pid)[i] == rs[i]
    ensures forall i :: 0 <= i < |rs| && rs[i].id == cartId ==> LineAdjusted(rs[i], IncreaseAll(rs, cartId, pid)[i], pid, 1)
    ensures WellFormed(rs) && AllConsistent(rs) ==>
              WellFormed(IncreaseAll(rs, cartId, pid)) && AllConsistent(IncreaseAll(rs, cartId, pid))
  {
    var r := IncreaseAll(rs, cartId, pid);
    forall i | 0 <= i < |rs| && rs[i].id == cartId
      ensures LineAdjusted(rs[i], r[i], pid, 1)
      ensures DistinctKeys(rs[i].productQty) && Consistent(rs[i]) ==> DistinctKeys(r[i].productQty) && Consistent(r[i])
    {
      AdjustedSpec(rs[i], pid, 1);
      if DistinctKeys(rs[i].productQty) && Consistent(rs[i]) {
        AdjustedConsistent(rs[i], pid, 1);
      }
    }
  }

  /** `handleDecrease`'s guard: the id matches and the current quantity is greater than 1. */
  predicate CanDecrease(c: CartRecord, cartId: string, pid: string) {
    c.id == cartId && QtyOf(c.productQty, pid).Some? && QtyOf(c.productQty, pid).value > 1
  }

  /** `prev.map(...)` in `handleDecrease`: a record changes only when its guard holds. */
  function DecreaseAll(rs: seq<CartRecord>, cartId: string, pid: string): (r: seq<CartRecord>)
    ensures |r| == |rs|
  {
    seq(|rs|, i requires 0 <= i < |rs| => if CanDecrease(rs[i], cartId, pid) then Adjusted(rs[i], pid, -1) else rs[i])
  }

  /** Every quantity present in every record is at least 1. */
  ghost predicate QuantitiesAtLeastOne(rs: seq<CartRecord>) {
    forall i, p :: 0 <= i < |rs| && QtyOf(rs[i].productQty, p).Some? ==> QtyOf(rs[i].productQty, p).value >= 1
  }

  /**
   * Decrease changes a record only when its guard holds, and then subtracts 1 from the line, 1 from
   * `totalQuantity` and one unit price from `totalPrice`; it never drives a quantity below 1; and it
   * preserves both aggregate equalities.
   */
  lemma DecreaseSpec(rs: seq<CartRecord>, cartId: string, pid: string)
    ensures forall i :: 0 <= i < |rs| && !CanDecrease(rs[i], cartId, pid) ==> DecreaseAll(rs, cartId, pid)[i] == rs[i]
    ensures forall i :: 0 <= i < |rs| && CanDecrease(rs[i], cartId, pid) ==>
              LineAdjusted(rs[i], DecreaseAll(rs, cartId, pid)[i], pid, -1) &&
              QtyOf(DecreaseAll(rs, cartId, pid)[i].productQty, pid).value >= 1
    ensures (forall i :: 0 <= i < |rs| ==> !CanDecrease(rs[i], cartId, pid)) ==> DecreaseAll(rs, cartId, pid) == rs
    ensures QuantitiesAtLeastOne(rs) ==> QuantitiesAtLeastOne(DecreaseAll(rs, cartId, pid))
    ensures WellFormed(rs) && AllConsistent(rs) ==>
              WellFormed(DecreaseAll(rs, cartId, pid)) && AllConsistent(DecreaseAll(rs, cartId, pid))
  {
    var r := DecreaseAll(rs, cartId, pid);
    forall i | 0 <= i < |rs| && CanDecrease(rs[i], cartId, pid)
      ensures LineAdjusted(rs[i], r[i], pid, -1)
      ensures DistinctKeys(rs[i].productQty) && Consistent(rs[i]) ==> DistinctKeys(r[i].productQty) && Consistent(r[i])
    {
      AdjustedSpec(rs[i], pid, -1);
      if DistinctKeys(rs[i].productQty) && Consistent(rs[i]) {
        AdjustedConsistent(rs[i], pid, -1);
      }
    }
    if QuantitiesAtLeastOne(rs) {
      forall i, p | 0 <= i < |r| && QtyOf(r[i].productQty, p).Some?
        ensures QtyOf(r[i].productQty, p).value >= 1
      {
        if CanDecrease(rs[i], cartId, pid) && p != pid {
          assert QtyOf(r[i].productQty, p) == QtyOf(rs[i].productQty, p);
        }
      }
    }
  }

  // ---------------------------------------------------------------------------------------------
  // Delete

  /** The delete handler reads `removedQty` from the record, so a matching record has the line (or no line at all). */
  predicate DeleteDefined(rs: seq<CartRecord>, cartId: string, pid: string) {
    forall i :: 0 <= i < |rs| && rs[i].id == cartId ==> HasKey(rs[i].productQty, pid) || rs[i].productQty == []
  }

  /** The matching record after a delete: `None` is the `null` that the filter then drops. */
  function Deleted(c: CartRecord, pid: string): (r: Option<CartRecord>)
    requires HasKey(c.productQty, pid) || c.productQty == []
  {
    var rest := RemoveKey(c.productQty, pid);
    if |rest| == 0 then None
    else
      var removedQty := QtyOf(c.productQty, pid).value;
      var unitPrice := UnitPrice(c);
      Some(c.(productQty := rest,
              totalQuantity := c.totalQuantity - removedQty,
              totalPrice := c.totalPrice - removedQty * unitPrice))
  }

  /**
   * A delete drops the record exactly when no line item other than `pid` remains. Otherwise the line
   * is gone, every other line reads as before, and both totals lose exactly that line's contribution;
   * a consistent record stays consistent.
   */
  lemma DeletedSpec(c: CartRecord, pid: string)
    requires HasKey(c.productQty, pid) || c.productQty == []
    ensures Deleted(c, pid).None? <==> forall p :: HasKey(c.productQty, p) ==> p == pid
    ensures Deleted(c, pid).Some? ==>
              var d := Deleted(c, pid).value;
              && !HasKey(d.productQty, pid)
              && (forall p :: p != pid ==> QtyOf(d.productQty, p) == QtyOf(c.productQty, p))
              && d.totalQuantity == c.totalQuantity - QtyOf(c.productQty, pid).value
              && d.totalPrice == c.totalPrice - QtyOf(c.productQty, pid).value * UnitPrice(c)
              && d == c.(productQty := d.productQty, totalQuantity := d.totalQuantity, totalPrice := d.totalPrice)
    ensures Deleted(c, pid).Some? && DistinctKeys(c.productQty) && Consistent(c) ==>
              DistinctKeys(Deleted(c, pid).value.productQty) && Consistent(Deleted(c, pid).value)
  {
    var rest := RemoveKey(c.productQty, pid);
    RemoveKeyLookupAll(c.productQty, pid);
    NoKeysMeansEmpty(rest);
    forall p | p != pid ensures HasKey(rest, p) <==> HasKey(c.productQty, p) {
      assert QtyOf(rest, p) == QtyOf(c.productQty, p);
    }
    if rest != [] && DistinctKeys(c.productQty) {
      RemoveKeyDistinct(c.productQty, pid);
      RemoveKeySums(c.productQty, pid, UnitPrice(c));
    }
  }

  /** The records whose id is not `cartId`, in order. */
  function Others(rs: seq<CartRecord>, cartId: string): seq<CartRecord> {
    if rs == [] then []
    else (if rs[0].id != cartId then [rs[0]] else []) + Others(rs[1..], cartId)
  }

  /**
   * The local update after an acknowledged delete: `prev.map(...)` followed by `filter(cart !== null)`,
   * fused into one pass.
   */
  function DeleteAll(rs: seq<CartRecord>, cartId: string, pid: string): (r: seq<CartRecord>)
    requires DeleteDefined(rs, cartId, pid)
    ensures |r| <= |rs|
  {
    if rs == [] then []
    else
      var updated := if rs[0].id == cartId then Deleted(rs[0], pid) else Some(rs[0]);
      (if updated.Some? then [updated.value] else []) + DeleteAll(rs[1..], cartId, pid)
  }

  /** Records with another id all survive a delete, in their original order, and no survivor with the id keeps the line. */
  lemma {:induction false} DeleteKeepsOthers(rs: seq<CartRecord>, cartId: string, pid: string)
    requires DeleteDefined(rs, cartId, pid)
    ensures Others(DeleteAll(rs, cartId, pid), cartId) == Others(rs, cartId)
    ensures forall c :: c in DeleteAll(rs, cartId, pid) && c.id == cartId ==> !HasKey(c.productQty, pid)
  {
    if rs != [] {
      DeleteKeepsOthers(rs[1..], cartId, pid);
      var tail := DeleteAll(rs[1..], cartId, pid);
      if rs[0].id == cartId {
        DeletedSpec(rs[0], pid);
        var d := Deleted(rs[0], pid);
        if d.Some? {
          assert DeleteAll(rs, cartId, pid) == [d.value] + tail;
          assert ([d.value] + tail)[1..] == tail;
        } else {
          assert DeleteAll(rs, cartId, pid) == tail;
        }
      } else {
        assert DeleteAll(rs, cartId, pid) == [rs[0]] + tail;
        assert ([rs[0]] + tail)[1..] == tail;
      }
    }
  }

  /** Deleting in a list with no matching record changes nothing. */
  lemma {:induction false} DeleteAllNoMatch(rs: seq<CartRecord>, cartId: string, pid: string)
    requires forall i :: 0 <= i < |rs| ==> rs[i].id != cartId
    ensures DeleteAll(rs, cartId, pid) == rs
  {
    if rs != [] {
      DeleteAllNoMatch(rs[1..], cartId, pid);
      assert rs == [rs[0]] + rs[1..];
    }
  }

  /**
   * With cart ids unique, a delete replaces the one matching record in place by its updated copy, or
   * drops it when no other line item remains; every other record stays where it was.
   */
  lemma {:induction false} DeleteSingleRecord(rs: seq<CartRecord>, cartId: string, pid: string, k: nat)
    requires k < |rs| && rs[k].id == cartId
    requires forall i :: 0 <= i < |rs| && i != k ==> rs[i].id != cartId
    requires HasKey(rs[k].productQty, pid) || rs[k].productQty == []
    ensures DeleteAll(rs, cartId, pid) ==
            rs[..k] + (if Deleted(rs[k], pid).Some? then [Deleted(rs[k], pid).value] else []) + rs[k + 1..]
  {
    if k == 0 {
      DeleteAllNoMatch(rs[1..], cartId, pid);
    } else {
      DeleteSingleRecord(rs[1..], cartId, pid, k - 1);
      assert rs[1..][..k - 1] == rs[1..k];
      assert rs[1..][k..] == rs[k + 1..];
      assert rs[..k] == [rs[0]] + rs[1..k];
    }
  }

  /** An acknowledged delete keeps both aggregate equalities for every surviving record. */
  lemma {:induction false} DeleteKeepsTotals(rs: seq<CartRecord>, cartId: string, pid: string)
    requires DeleteDefined(rs, cartId, pid) && WellFormed(rs) && AllConsistent(rs)
    ensures WellFormed(DeleteAll(rs, cartId, pid)) && AllConsistent(DeleteAll(rs, cartId, pid))
  {
    if rs != [] {
      DeleteKeepsTotals(rs[1..], cartId, pid);
      var tail := DeleteAll(rs[1..], cartId, pid);
      var r := DeleteAll(rs, cartId, pid);
      if rs[0].id == cartId {
        DeletedSpec(rs[0], pid);
      }
      assert r == tail || (r[1..] == tail && DistinctKeys(r[0].productQty) && Consistent(r[0]));
    }
  }

  // ---------------------------------------------------------------------------------------------
  // Selection

  /** The selection key of one line item: the two ids joined by a hyphen. */
  function CompositeKey(cartId: string, productId: string): string {
    cartId + "-" + productId
  }

  /** Keys containing a hyphen collide: two different line items can share a selection key. */
  lemma CompositeKeyNotInjective()
    ensures CompositeKey("a-b", "c") == CompositeKey("a", "b-c")
  {
  }

  /** `k` is the composite key of some line item of some record. */
  predicate IsLineKey(rs: seq<CartRecord>, k: string) {
    exists i, j :: 0 <= i < |rs| && 0 <= j < |rs[i].productQty| &&
                   k == CompositeKey(rs[i].id, rs[i].productQty[j].productId)
  }

  /** The keys of one record's line items, in key order. */
  function RecordKeys(c: CartRecord): seq<string> {
    seq(|c.productQty|, j requires 0 <= j < |c.productQty| => CompositeKey(c.id, c.productQty[j].productId))
  }

  /** The initial selection: `flatMap` over the records of their line-item keys. */
  function SeedSelection(rs: seq<CartRecord>): seq<string> {
    if rs == [] then [] else RecordKeys(rs[0]) + SeedSelection(rs[1..])
  }

  /** The seed selection holds the key of every line item of every record and nothing else. */
  lemma {:induction false} SeedSelectionExact(rs: seq<CartRecord>)
    ensures forall k :: k in SeedSelection(rs) <==> IsLineKey(rs, k)
  {
    if rs != [] {
      SeedSelectionExact(rs[1..]);
      forall k ensures k in SeedSelection(rs) <==> IsLineKey(rs, k) {
        if k in RecordKeys(rs[0]) {
          var j :| 0 <= j < |rs[0].productQty| && RecordKeys(rs[0])[j] == k;
          assert k == CompositeKey(rs[0].id, rs[0].productQty[j].productId);
        }
        if IsLineKey(rs[1..], k) {
          var i, j :| 0 <= i < |rs[1..]| && 0 <= j < |rs[1..][i].productQty| &&
                      k == CompositeKey(rs[1..][i].id, rs[1..][i].productQty[j].productId);
          assert rs[1..][i] == rs[i + 1];
        }
        if IsLineKey(rs, k) {
          var i, j :| 0 <= i < |rs| && 0 <= j < |rs[i].productQty| &&
                      k == CompositeKey(rs[i].id, rs[i].productQty[j].productId);
          if i == 0 {
            assert RecordKeys(rs[0])[j] == k;
          } else {
            assert rs[1..][i - 1] == rs[i];
            assert IsLineKey(rs[1..], k);
          }
        }
      }
    }
  }

  /** `prev.filter(id => id !== key)`. */
  function WithoutKey(sel: seq<string>, key: string): (r: seq<string>)
    ensures forall k :: k in r <==> k in sel && k != key
  {
    if sel == [] then []
    else (if sel[0] != key then [sel[0]] else []) + WithoutKey(sel[1..], key)
  }

  /** `handleSelect`'s update: remove every copy of the key when present, append it otherwise. */
  function Toggle(sel: seq<string>, key: string): (r: seq<string>)
    ensures key in r <==> key !in sel
    ensures forall k :: k != key ==> (k in r <==> k in sel)
  {
    if key in sel then WithoutKey(sel, key) else sel + [key]
  }

  /** Filtering out a key that is absent returns the list unchanged. */
  lemma {:induction false} WithoutAbsentKey(sel: seq<string>, key: string)
    requires key !in sel
    ensures WithoutKey(sel, key) == sel
  {
    if sel != [] {
      WithoutAbsentKey(sel[1..], key);
      assert sel == [sel[0]] + sel[1..];
    }
  }

  /** Toggling a key that was not selected twice gives back exactly the same list. */
  lemma {:induction false} ToggleTwiceRestores(sel: seq<string>, key: string)
    requires key !in sel
    ensures Toggle(Toggle(sel, key), key) == sel
  {
    WithoutKeyAppend(sel, [key], key);
    WithoutAbsentKey(sel, key);
    assert WithoutKey([key], key) == [] + WithoutKey([], key);
  }

  lemma {:induction false} WithoutKeyAppend(a: seq<string>, b: seq<string>, key: string)
    ensures WithoutKey(a + b, key) == WithoutKey(a, key) + WithoutKey(b, key)
  {
    if a != [] {
      WithoutKeyAppend(a[1..], b, key);
      assert (a + b)[1..] == a[1..] + b;
    } else {
      assert a + b == b;
    }
  }

  // ---------------------------------------------------------------------------------------------
  // Selected total

  /** The inner `reduce`: selected line items of one record, each worth `unit × qty`. */
  function LinesTotal(cartId: string, lines: seq<Line>, unit: int, sel: seq<string>): int {
    if lines == [] then 0
    else (if CompositeKey(cartId, lines[0].productId) in sel then unit * lines[0].qty else 0)
         + LinesTotal(cartId, lines[1..], unit, sel)
  }

  /** `selectedTotal`: the outer `reduce` over the records. */
  function SelectedTotalOf(rs: seq<CartRecord>, sel: seq<string>): int {
    if rs == [] then 0
    else LinesTotal(rs[0].id, rs[0].productQty, UnitPrice(rs[0]), sel) + SelectedTotalOf(rs[1..], sel)
  }

  /** The sum of the records' `totalPrice` fields. */
  function TotalPrices(rs: seq<CartRecord>): int {
    if rs == [] then 0 else rs[0].totalPrice + TotalPrices(rs[1..])
  }

  /** Nothing selected, nothing to pay. */
  lemma {:induction false} EmptySelectionTotal(rs: seq<CartRecord>)
    ensures SelectedTotalOf(rs, []) == 0
  {
    if rs != [] {
      EmptySelectionLines(rs[0].id, rs[0].productQty, UnitPrice(rs[0]));
      EmptySelectionTotal(rs[1..]);
    }
  }

  lemma {:induction false} EmptySelectionLines(cartId: string, lines: seq<Line>, unit: int)
    ensures LinesTotal(cartId, lines, unit, []) == 0
  {
    if lines != [] {
      EmptySelectionLines(cartId, lines[1..], unit);
    }
  }

  /** The total depends only on which keys are selected, not on their order or repetitions. */
  lemma {:induction false} TotalDependsOnMembership(rs: seq<CartRecord>, s1: seq<string>, s2: seq<string>)
    requires forall k :: k in s1 <==> k in s2
    ensures SelectedTotalOf(rs, s1) == SelectedTotalOf(rs, s2)
  {
    if rs != [] {
      LinesDependOnMembership(rs[0].id, rs[0].productQty, UnitPrice(rs[0]), s1, s2);
      TotalDependsOnMembership(rs[1..], s1, s2);
    }
  }

  lemma {:induction false} LinesDependOnMembership(cartId: string, lines: seq<Line>, unit: int,
                                                   s1: seq<string>, s2: seq<string>)
    requires forall k :: k in s1 <==> k in s2
    ensures LinesTotal(cartId, lines, unit, s1) == LinesTotal(cartId, lines, unit, s2)
  {
    if lines != [] {
      LinesDependOnMembership(cartId, lines[1..], unit, s1, s2);
    }
  }

  /** When every line item of a record is selected, its selected total is its price sum. */
  lemma {:induction false} AllLinesSelected(cartId: string, lines: seq<Line>, unit: int, sel: seq<string>)
    requires forall j :: 0 <= j < |lines| ==> CompositeKey(cartId, lines[j].productId) in sel
    ensures LinesTotal(cartId, lines, unit, sel) == PriceSum(lines, unit)
  {
    if lines != [] {
      assert CompositeKey(cartId, lines[0].productId) in sel;
      forall j | 0 <= j < |lines[1..]| ensures CompositeKey(cartId, lines[1..][j].productId) in sel {
        assert lines[1..][j] == lines[j + 1];
      }
      AllLinesSelected(cartId, lines[1..], unit, sel);
    }
  }

  /**
   * With every line item selected (as on arrival, by the seed selection), the selected total is the
   * sum of the records' `totalPrice` fields, provided those agree with their line items.
   */
  lemma {:induction false} FullSelectionTotal(rs: seq<CartRecord>, sel: seq<string>)
    requires AllConsistent(rs)
    requires forall k :: IsLineKey(rs, k) ==> k in sel
    ensures SelectedTotalOf(rs, sel) == TotalPrices(rs)
  {
    if rs != [] {
      forall j | 0 <= j < |rs[0].productQty| ensures CompositeKey(rs[0].id, rs[0].productQty[j].productId) in sel {
        assert IsLineKey(rs, CompositeKey(rs[0].id, rs[0].productQty[j].productId));
      }
      AllLinesSelected(rs[0].id, rs[0].productQty, UnitPrice(rs[0]), sel);
      forall k | IsLineKey(rs[1..], k) ensures k in sel {
        var i, j :| 0 <= i < |rs[1..]| && 0 <= j < |rs[1..][i].productQty| &&
                    k == CompositeKey(rs[1..][i].id, rs[1..][i].productQty[j].productId);
        assert rs[1..][i] == rs[i + 1];
        assert IsLineKey(rs, k);
      }
      FullSelectionTotal(rs[1..], sel);
    }
  }

  /** On arrival every line is selected, so the selected total is the sum of the record totals. */
  lemma SeedTotal(rs: seq<CartRecord>)
    requires AllConsistent(rs)
    ensures SelectedTotalOf(rs, SeedSelection(rs)) == TotalPrices(rs)
  {
    SeedSelectionExact(rs);
    FullSelectionTotal(rs, SeedSelection(rs));
  }

  // ---------------------------------------------------------------------------------------------
  // The screen's state

  class CartView {
    var cartData: seq<CartRecord>
    var selectedItems: seq<string>
    var deleteMessage: Option<string>

    /** Mounting: `location.state?.cartData || []`, with every line item of the seed selected. */
    constructor (passedCartData: Option<seq<CartRecord>>)
      ensures cartData == passedCartData.GetOr([])
      ensures selectedItems == SeedSelection(cartData)
      ensures forall k :: k in selectedItems <==> IsLineKey(cartData, k)
      ensures deleteMessage == None
    {
      cartData := passedCartData.GetOr([]);
      selectedItems := SeedSelection(passedCartData.GetOr([]));
      deleteMessage := None;
      SeedSelectionExact(passedCartData.GetOr([]));
    }

    /** The figure shown under "Selected Total": nothing selected, nothing to pay. */
    function SelectedTotal(): (r: int)
      reads this
      ensures selectedItems == [] ==> r == 0
    {
      EmptySelectionTotal(cartData);
      SelectedTotalOf(cartData, selectedItems)
    }

    method HandleSelect(cartId: string, productId: string)
      modifies this
      ensures selectedItems == Toggle(old(selectedItems), CompositeKey(cartId, productId))
      ensures cartData == old(cartData) && deleteMessage == old(deleteMessage)
    {
      var key := CompositeKey(cartId, productId);
      selectedItems := Toggle(selectedItems, key);
    }

    method HandleIncrease(cartId: string, productId: string)
      requires KeyInMatching(cartData, cartId, productId)
      modifies this
      ensures cartData == IncreaseAll(old(cartData), cartId, productId)
      ensures WellFormed(old(cartData)) && AllConsistent(old(cartData)) ==>
                WellFormed(cartData) && AllConsistent(cartData)
      ensures selectedItems == old(selectedItems) && deleteMessage == old(deleteMessage)
    {
      IncreaseSpec(cartData, cartId, productId);
      cartData := IncreaseAll(cartData, cartId, productId);
    }

    method HandleDecrease(cartId: string, productId: string)
      modifies this
      ensures cartData == DecreaseAll(old(cartData), cartId, productId)
      ensures WellFormed(old(cartData)) && AllConsistent(old(cartData)) ==>
                WellFormed(cartData) && AllConsistent(cartData)
      ensures QuantitiesAtLeastOne(old(cartData)) ==> QuantitiesAtLeastOne(cartData)
      ensures selectedItems == old(selectedItems) && deleteMessage == old(deleteMessage)
    {
      DecreaseSpec(cartData, cartId, productId);
      cartData := DecreaseAll(cartData, cartId, productId);
    }

    /**
     * `handleDelete` once the cart service has answered: `deleted` is an ok response; a non-ok
     * response or a thrown error is `!deleted`. The selection is never touched, so stale keys remain.
     */
    method HandleDelete(cartId: string, productId: string, productName: string, deleted: bool)
      requires deleted ==> DeleteDefined(cartData, cartId, productId)
      modifies this
      ensures deleted ==> cartData == DeleteAll(old(cartData), cartId, productId)
      ensures deleted ==> deleteMessage == Some("Product " + productName + " removed from cart.")
      ensures deleted && WellFormed(old(cartData)) && AllConsistent(old(cartData)) ==>
                WellFormed(cartData) && AllConsistent(cartData)
      ensures !deleted ==> cartData == old(cartData)
      ensures !deleted ==> deleteMessage == Some("Failed to delete item. Please try again.")
      ensures selectedItems == old(selectedItems)
    {
      if deleted {
        deleteMessage := Some("Product " + productName + " removed from cart.");
        if WellFormed(cartData) && AllConsistent(cartData) {
          DeleteKeepsTotals(cartData, cartId, productId);
        }
        cartData := DeleteAll(cartData, cartId, productId);
      } else {
        deleteMessage := Some("Failed to delete item. Please try again.");
      }
    }
  }
}
