/** The cart document of src/models/Cart.ts: one cart per user (the
    collection is a map keyed by userId) holding an ordered sequence of lines,
    each with a required productId and a quantity of at least 1; and the two
    line edits the cart route performs, as reference definitions. */
module CartModel {
  import opened Common

  datatype CartLine = CartLine(productId: Id, quantity: int)

  /** No product appears on two lines. */
  predicate UniqueProducts(lines: seq<CartLine>) {
    forall i, j :: 0 <= i < j < |lines| ==> lines[i].productId != lines[j].productId
  }

  /** The schema's requirements on each line. */
  predicate LineValid(line: CartLine) {
    line.productId != "" && line.quantity >= 1
  }

  /** The invariant of a stored cart. */
  predicate LinesValid(lines: seq<CartLine>) {
    UniqueProducts(lines) && forall k :: 0 <= k < |lines| ==> LineValid(lines[k])
  }

  predicate HasLine(lines: seq<CartLine>, productId: Id) {
    exists k :: 0 <= k < |lines| && lines[k].productId == productId
  }

  /** `items.findIndex(it => it.productId === productId)`: the first line for
      the product, or -1 when there is none. */
  function IndexOf(lines: seq<CartLine>, productId: Id): (r: int)
    ensures -1 <= r < |lines|
    ensures r == -1 <==> !HasLine(lines, productId)
    ensures r >= 0 ==> lines[r].productId == productId &&
                       forall k :: 0 <= k < r ==> lines[k].productId != productId
  {
    if lines == [] then -1
    else if lines[0].productId == productId then 0
    else
      var j := IndexOf(lines[1..], productId);
      assert forall k :: 1 <= k < |lines| ==> lines[k] == lines[1..][k - 1];
      if j == -1 then -1 else j + 1
  }

  /** A product with a line in a prefix is found at the same index in the
      whole cart. */
  lemma IndexOfInPrefix(lines: seq<CartLine>, m: nat, productId: Id)
    requires m <= |lines| && HasLine(lines[..m], productId)
    ensures IndexOf(lines, productId) == IndexOf(lines[..m], productId) < m
  {
    var q := IndexOf(lines[..m], productId);
    assert lines[q] == lines[..m][q];
  }

  /** Total quantity the lines request for a product (0 when it has none). */
  function QuantityOf(lines: seq<CartLine>, productId: Id): int {
    if lines == [] then 0
    else (if lines[0].productId == productId then lines[0].quantity else 0) +
         QuantityOf(lines[1..], productId)
  }

  /** The lines for other products, in their order. */
  function Others(lines: seq<CartLine>, productId: Id): seq<CartLine> {
    if lines == [] then []
    else if lines[0].productId == productId then Others(lines[1..], productId)
    else [lines[0]] + Others(lines[1..], productId)
  }

  /** Add-to-cart on an existing cart: the product's line, if any, gets
      qty more; otherwise a line is appended at the end. */
  function AddLine(lines: seq<CartLine>, productId: Id, qty: int): seq<CartLine> {
    if lines == [] then [CartLine(productId, qty)]
    else if lines[0].productId == productId then
      [lines[0].(quantity := lines[0].quantity + qty)] + lines[1..]
    else [lines[0]] + AddLine(lines[1..], productId, qty)
  }

  /** Set-quantity: the product's line is dropped when qty <= 0 and gets
      quantity qty otherwise; without such a line nothing changes. */
  function SetLineQuantity(lines: seq<CartLine>, productId: Id, qty: int): seq<CartLine> {
    if lines == [] then []
    else if lines[0].productId == productId then
      (if qty <= 0 then lines[1..] else [lines[0].(quantity := qty)] + lines[1..])
    else [lines[0]] + SetLineQuantity(lines[1..], productId, qty)
  }

  // ---- properties of the reference definitions ----

  lemma HasLineCons(line: CartLine, lines: seq<CartLine>, productId: Id)
    ensures HasLine([line] + lines, productId) <==> line.productId == productId || HasLine(lines, productId)
  {
    var r := [line] + lines;
    if line.productId == productId {
      assert r[0].productId == productId;
    }
    if HasLine(lines, productId) {
      var k :| 0 <= k < |lines| && lines[k].productId == productId;
      assert r[k + 1] == lines[k];
    }
    if HasLine(r, productId) && line.productId != productId {
      var k :| 0 <= k < |r| && r[k].productId == productId;
      assert lines[k - 1] == r[k];
    }
  }

  lemma ValidCons(line: CartLine, lines: seq<CartLine>)
    ensures LinesValid([line] + lines) <==>
            LineValid(line) && !HasLine(lines, line.productId) && LinesValid(lines)
  {
    var r := [line] + lines;
    assert forall k :: 0 <= k < |lines| ==> lines[k] == r[k + 1];
    if LinesValid(r) {
      assert LineValid(r[0]);
      forall k | 0 <= k < |lines| ensures lines[k].productId != line.productId {
        assert r[0].productId != r[k + 1].productId;
      }
      forall i, j | 0 <= i < j < |lines| ensures lines[i].productId != lines[j].productId {
        assert r[i + 1].productId != r[j + 1].productId;
      }
    }
    if LineValid(line) && !HasLine(lines, line.productId) && LinesValid(lines) {
      forall i, j | 0 <= i < j < |r| ensures r[i].productId != r[j].productId {
        if i == 0 {
          assert r[j] == lines[j - 1];
        }
      }
    }
  }

  lemma {:induction false} QuantityOfAbsent(lines: seq<CartLine>, productId: Id)
    requires !HasLine(lines, productId)
    ensures QuantityOf(lines, productId) == 0
  {
    if lines != [] {
      assert lines == [lines[0]] + lines[1..];
      HasLineCons(lines[0], lines[1..], productId);
      QuantityOfAbsent(lines[1..], productId);
    }
  }

  lemma {:induction false} QuantityOfSplit(a: seq<CartLine>, b: seq<CartLine>, productId: Id)
    ensures QuantityOf(a + b, productId) == QuantityOf(a, productId) + QuantityOf(b, productId)
  {
    if a == [] {
      assert a + b == b;
    } else {
      assert (a + b)[0] == a[0];
      assert (a + b)[1..] == a[1..] + b;
      QuantityOfSplit(a[1..], b, productId);
    }
  }

  /** With unique lines, a product's quantity is the quantity on its line. */
  lemma {:induction false} QuantityOfLine(lines: seq<CartLine>, k: int)
    requires UniqueProducts(lines) && 0 <= k < |lines|
    ensures QuantityOf(lines, lines[k].productId) == lines[k].quantity
  {
    var p := lines[k].productId;
    assert lines == lines[..k] + ([lines[k]] + lines[k + 1..]);
    assert !HasLine(lines[..k], p) by {
      forall m | 0 <= m < k ensures lines[..k][m].productId != p { assert lines[..k][m] == lines[m]; }
    }
    var after := lines[k + 1..];
    assert !HasLine(after, p) by {
      forall m | 0 <= m < |after| ensures after[m].productId != p {
        assert after[m] == lines[k + 1 + m];
      }
    }
    QuantityOfAbsent(lines[..k], p);
    QuantityOfAbsent(lines[k + 1..], p);
    QuantityOfSplit(lines[..k], [lines[k]] + lines[k + 1..], p);
  }

  /** Add-to-cart adds qty to the product's quantity and leaves every other
      product's quantity as it was. */
  lemma {:induction false} AddLineQuantities(lines: seq<CartLine>, productId: Id, qty: int, p: Id)
    ensures QuantityOf(AddLine(lines, productId, qty), p) ==
            QuantityOf(lines, p) + (if p == productId then qty else 0)
  {
    if lines != [] && lines[0].productId != productId {
      var r := AddLine(lines, productId, qty);
      assert r[1..] == AddLine(lines[1..], productId, qty);
      AddLineQuantities(lines[1..], productId, qty, p);
    } else if lines != [] {
      var r := AddLine(lines, productId, qty);
      assert r[1..] == lines[1..];
    }
  }

  /** Add-to-cart keeps the cart invariant (still at most one line per
      product, every quantity at least 1 when qty is), and the products with
      a line are the old ones plus the one added. */
  lemma {:induction false} AddLineValid(lines: seq<CartLine>, productId: Id, qty: int)
    requires LinesValid(lines) && productId != "" && qty >= 1
    ensures LinesValid(AddLine(lines, productId, qty))
    ensures forall p :: HasLine(AddLine(lines, productId, qty), p) <==> HasLine(lines, p) || p == productId
  {
    var r := AddLine(lines, productId, qty);
    if lines == [] {
      forall p ensures HasLine(r, p) <==> p == productId {
        HasLineCons(CartLine(productId, qty), [], p);
        assert r == [CartLine(productId, qty)] + [];
      }
    } else {
      var x, tail := lines[0], lines[1..];
      assert lines == [x] + tail;
      ValidCons(x, tail);
      if x.productId == productId {
        var y := x.(quantity := x.quantity + qty);
        assert r == [y] + tail;
        ValidCons(y, tail);
        forall p ensures HasLine(r, p) <==> HasLine(lines, p) || p == productId {
          HasLineCons(x, tail, p);
          HasLineCons(y, tail, p);
        }
      } else {
        var rt := AddLine(tail, productId, qty);
        assert r == [x] + rt;
        AddLineValid(tail, productId, qty);
        ValidCons(x, rt);
        forall p ensures HasLine(r, p) <==> HasLine(lines, p) || p == productId {
          HasLineCons(x, tail, p);
          HasLineCons(x, rt, p);
        }
      }
    }
  }

  lemma ConsUpdate(x: CartLine, tail: seq<CartLine>, j: int, y: CartLine)
    requires 0 <= j < |tail|
    ensures [x] + tail[j := y] == ([x] + tail)[j + 1 := y]
  {
    var a, b := [x] + tail[j := y], ([x] + tail)[j + 1 := y];
    forall k | 0 <= k < |a| ensures a[k] == b[k] {
      if k > 0 { assert a[k] == tail[j := y][k - 1]; }
    }
  }

  /** Add-to-cart for a product without a line is `items.push`. */
  lemma {:induction false} AddLineAppends(lines: seq<CartLine>, productId: Id, qty: int)
    requires IndexOf(lines, productId) == -1
    ensures AddLine(lines, productId, qty) == lines + [CartLine(productId, qty)]
  {
    if lines != [] {
      var tail := lines[1..];
      AddLineAppends(tail, productId, qty);
      assert lines == [lines[0]] + tail;
      assert [lines[0]] + (tail + [CartLine(productId, qty)]) == lines + [CartLine(productId, qty)];
    }
  }

  /** Add-to-cart for a product with a line is the in-place
      `existing.quantity += qty`. */
  lemma {:induction false} AddLineMerges(lines: seq<CartLine>, productId: Id, qty: int)
    requires IndexOf(lines, productId) != -1
    ensures var i := IndexOf(lines, productId);
            AddLine(lines, productId, qty) == lines[i := lines[i].(quantity := lines[i].quantity + qty)]
  {
    var x, tail := lines[0], lines[1..];
    assert lines == [x] + tail;
    if x.productId == productId {
      assert [x.(quantity := x.quantity + qty)] + tail == lines[0 := x.(quantity := x.quantity + qty)];
    } else {
      AddLineMerges(tail, productId, qty);
      var j := IndexOf(tail, productId);
      ConsUpdate(x, tail, j, tail[j].(quantity := tail[j].quantity + qty));
    }
  }

  /** Without a line for the product, set-quantity changes nothing. */
  lemma {:induction false} SetLineAbsent(lines: seq<CartLine>, productId: Id, qty: int)
    requires IndexOf(lines, productId) == -1
    ensures SetLineQuantity(lines, productId, qty) == lines
  {
    if lines != [] {
      assert lines == [lines[0]] + lines[1..];
      SetLineAbsent(lines[1..], productId, qty);
    }
  }

  /** The list splice PATCH performs for qty <= 0 (`items.splice(idx, 1)`). */
  lemma {:induction false} SetLineRemovesAt(lines: seq<CartLine>, productId: Id, qty: int)
    requires IndexOf(lines, productId) != -1 && qty <= 0
    ensures var i := IndexOf(lines, productId);
            SetLineQuantity(lines, productId, qty) == lines[..i] + lines[i + 1..]
  {
    var x, tail := lines[0], lines[1..];
    assert lines == [x] + tail;
    if x.productId != productId {
      SetLineRemovesAt(tail, productId, qty);
      var j := IndexOf(tail, productId);
      var i := j + 1;
      assert lines[..i] == [x] + tail[..j];
      assert tail[j + 1..] == lines[i + 1..];
    }
  }

  /** The in-place assignment PATCH performs for qty > 0
      (`items[idx].quantity = qty`). */
  lemma {:induction false} SetLineReplacesAt(lines: seq<CartLine>, productId: Id, qty: int)
    requires IndexOf(lines, productId) != -1 && qty > 0
    ensures var i := IndexOf(lines, productId);
            SetLineQuantity(lines, productId, qty) == lines[i := lines[i].(quantity := qty)]
  {
    var x, tail := lines[0], lines[1..];
    assert lines == [x] + tail;
    if x.productId == productId {
      assert [x.(quantity := qty)] + tail == lines[0 := x.(quantity := qty)];
    } else {
      SetLineReplacesAt(tail, productId, qty);
      var j := IndexOf(tail, productId);
      ConsUpdate(x, tail, j, tail[j].(quantity := qty));
    }
  }

  /** Set-quantity keeps the cart invariant; the product loses its line
      exactly when qty <= 0, every other product keeps its line. */
  lemma {:induction false} SetLineValid(lines: seq<CartLine>, productId: Id, qty: int)
    requires LinesValid(lines)
    ensures LinesValid(SetLineQuantity(lines, productId, qty))
    ensures forall p :: HasLine(SetLineQuantity(lines, productId, qty), p) <==>
                        HasLine(lines, p) && !(p == productId && qty <= 0)
  {
    var r := SetLineQuantity(lines, productId, qty);
    if lines != [] {
      var x, tail := lines[0], lines[1..];
      assert lines == [x] + tail;
      ValidCons(x, tail);
      if x.productId == productId {
        if qty <= 0 {
          forall p ensures HasLine(r, p) <==> HasLine(lines, p) && !(p == productId && qty <= 0) {
            HasLineCons(x, tail, p);
          }
        } else {
          var y := x.(quantity := qty);
          assert r == [y] + tail;
          ValidCons(y, tail);
          forall p ensures HasLine(r, p) <==> HasLine(lines, p) && !(p == productId && qty <= 0) {
            HasLineCons(x, tail, p);
            HasLineCons(y, tail, p);
          }
        }
      } else {
        var rt := SetLineQuantity(tail, productId, qty);
        assert r == [x] + rt;
        SetLineValid(tail, productId, qty);
        ValidCons(x, rt);
        forall p ensures HasLine(r, p) <==> HasLine(lines, p) && !(p == productId && qty <= 0) {
          HasLineCons(x, tail, p);
          HasLineCons(x, rt, p);
        }
      }
    }
  }

  /** In a valid cart, removing a line keeps all other lines, in order,
      with their quantities. */
  lemma {:induction false} RemoveKeepsOthers(lines: seq<CartLine>, productId: Id, qty: int)
    requires UniqueProducts(lines) && qty <= 0
    ensures SetLineQuantity(lines, productId, qty) == Others(lines, productId)
  {
    if lines != [] {
      var x, tail := lines[0], lines[1..];
      assert UniqueProducts(tail) by {
        forall i, j | 0 <= i < j < |tail| ensures tail[i].productId != tail[j].productId {
          assert lines[i + 1].productId != lines[j + 1].productId;
        }
      }
      if x.productId == productId {
        assert !HasLine(tail, productId) by {
          forall k | 0 <= k < |tail| ensures tail[k].productId != productId {
            assert lines[0].productId != lines[k + 1].productId;
          }
        }
        OthersAbsent(tail, productId);
      } else {
        RemoveKeepsOthers(tail, productId, qty);
      }
    }
  }

  lemma {:induction false} OthersAbsent(lines: seq<CartLine>, productId: Id)
    requires !HasLine(lines, productId)
    ensures Others(lines, productId) == lines
  {
    if lines != [] {
      assert lines == [lines[0]] + lines[1..];
      HasLineCons(lines[0], lines[1..], productId);
      OthersAbsent(lines[1..], productId);
    }
  }

  /** With qty > 0, set-quantity gives the product exactly qty if it had a
      line, and every other product keeps its quantity. */
  lemma {:induction false} SetLineQuantities(lines: seq<CartLine>, productId: Id, qty: int, p: Id)
    requires UniqueProducts(lines) && qty > 0
    ensures QuantityOf(SetLineQuantity(lines, productId, qty), p) ==
            if p != productId then QuantityOf(lines, p)
            else if HasLine(lines, productId) then qty else 0
  {
    if lines == [] {
    } else {
      var x, tail := lines[0], lines[1..];
      assert lines == [x] + tail;
      HasLineCons(x, tail, productId);
      assert UniqueProducts(tail) by {
        forall i, j | 0 <= i < j < |tail| ensures tail[i].productId != tail[j].productId {
          assert lines[i + 1].productId != lines[j + 1].productId;
        }
      }
      var r := SetLineQuantity(lines, productId, qty);
      if x.productId == productId {
        assert r[0] == x.(quantity := qty) && r[1..] == tail;
        assert !HasLine(tail, productId) by {
          forall k | 0 <= k < |tail| ensures tail[k].productId != productId {
            assert lines[0].productId != lines[k + 1].productId;
          }
        }
        QuantityOfAbsent(tail, productId);
      } else {
        assert r[0] == x && r[1..] == SetLineQuantity(tail, productId, qty);
        SetLineQuantities(tail, productId, qty, p);
      }
    }
  }
}
