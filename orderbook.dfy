/** The order book class of src/orderbook.js: two sequences of resting
    orders that its methods update in place, proved to behave as the
    functions of BookSpec describe. */
module OrderBookEngine {
  import opened BookSpec

  lemma LessAfterNotLess(a: Order, b: Order, c: Order, direction: Direction)
    requires !KeyLess(b, a, direction) && KeyLess(b, c, direction)
    ensures KeyLess(a, c, direction)
  {
  }

  class OrderBook {
    /** Resting buys: price descending, then id ascending. */
    var buys: seq<Order>
    /** Resting sells (amount zero included): price ascending, then id ascending. */
    var sells: seq<Order>

    function Model(): Book
      reads this
    {
      Book(buys, sells)
    }

    ghost predicate Valid()
      reads this
    {
      ValidBook(Model())
    }

    constructor ()
      ensures Valid() && Model() == Empty
    {
      buys := [];
      sells := [];
    }

    /** The insertion index of `order` in `orders`: every order before it has
        a strictly smaller (direction * price, id) key, and, when `orders` is
        sorted by that key, no order from it on has. */
    static method BinarySearch(orders: seq<Order>, order: Order, direction: Direction := 1) returns (low: int)
      ensures 0 <= low <= |orders|
      ensures Sorted(orders, direction) ==>
                (forall i :: 0 <= i < low ==> KeyLess(orders[i], order, direction)) &&
                (forall i :: low <= i < |orders| ==> !KeyLess(orders[i], order, direction))
    {
      var targetPrice := direction * order.price;
      low := 0;
      var high := |orders| - 1;
      while low <= high
        invariant 0 <= low <= high + 1 <= |orders|
        invariant Sorted(orders, direction) ==> forall i :: 0 <= i < low ==> KeyLess(orders[i], order, direction)
        invariant Sorted(orders, direction) ==> forall i :: high < i < |orders| ==> !KeyLess(orders[i], order, direction)
      {
        var mid := (low + high) / 2;
        ghost var m := orders[mid];
        assert Scaled(m.price, direction) == m.price * direction;
        assert Scaled(order.price, direction) == targetPrice;
        if orders[mid].price * direction == targetPrice {
          if orders[mid].id < order.id {
            low := mid + 1;
          } else {
            high := mid - 1;
          }
        } else if orders[mid].price * direction < targetPrice {
          low := mid + 1;
        } else {
          high := mid - 1;
        }
        if Sorted(orders, direction) {
          if KeyLess(m, order, direction) {
            forall i | 0 <= i < mid ensures KeyLess(orders[i], order, direction) {
              LessAfterNotLess(orders[i], m, order, direction);
            }
          } else {
            forall i | mid < i < |orders| ensures !KeyLess(orders[i], order, direction) {
              NotLessTransitive(order, m, orders[i], direction);
            }
          }
        }
      }
    }

    /** `addOrder`: a positive amount goes into the buys, anything else into
        the sells, at the index `BinarySearch` finds. */
    method AddOrder(order: Order)
      requires Valid()
      modifies this
      ensures Valid()
      ensures Model() == Added(old(Model()), order)
    {
      if order.amount > 0 {
        var index := BinarySearch(buys, order, -1);
        SpliceIsInsert(buys, order, -1, index);
        buys := buys[..index] + [order] + buys[index..];
      } else {
        var index := BinarySearch(sells, order, 1);
        SpliceIsInsert(sells, order, 1, index);
        sells := sells[..index] + [order] + sells[index..];
      }
      AddedKeepsValid(old(Model()), order);
    }

    /** `init`: adds each order of `book` in turn, without clearing first. */
    method Init(book: seq<Order>)
      requires Valid()
      modifies this
      ensures Valid()
      ensures Model() == Seeded(old(Model()), book)
    {
      for i := 0 to |book|
        invariant Valid()
        invariant Model() == Seeded(old(Model()), book[..i])
      {
        AddOrder(book[i]);
        assert book[..i + 1][..i] == book[..i];
      }
      assert book[..|book|] == book;
    }

    /** `fulfillOrder`: a bid consumes sells from the front while it has a
        residual and its price reaches the best sell; an ask does the same
        against the buys. A partially filled resting order is reduced and
        put back at the front. */
    method FulfillOrder(order: Order) returns (matchedOrders: seq<Order>, remainingAmountToMatch: int)
      requires Valid()
      modifies this
      ensures Valid()
      ensures Fulfilment(Model(), matchedOrders, remainingAmountToMatch) == Fulfil(old(Model()), order)
    {
      matchedOrders := [];
      remainingAmountToMatch := order.amount;
      if remainingAmountToMatch > 0 {
        while remainingAmountToMatch > 0 && |sells| > 0 && order.price >= sells[0].price
          invariant buys == old(buys)
          invariant Match(Bid, order.price, order.amount, old(sells))
                    == Resume(matchedOrders, Match(Bid, order.price, remainingAmountToMatch, sells))
          decreases |sells|, if remainingAmountToMatch > 0 then 1 else 0
        {
          MatchStep(Bid, order.price, remainingAmountToMatch, sells, matchedOrders);
          var matchedOrder := sells[0];
          sells := sells[1..];
          if remainingAmountToMatch == -matchedOrder.amount {
            matchedOrders := matchedOrders + [matchedOrder];
            remainingAmountToMatch := 0;
          } else if remainingAmountToMatch < -matchedOrder.amount {
            matchedOrder := matchedOrder.(amount := matchedOrder.amount + remainingAmountToMatch);
            sells := [matchedOrder] + sells;
            remainingAmountToMatch := 0;
          } else {
            remainingAmountToMatch := remainingAmountToMatch + matchedOrder.amount;
            matchedOrders := matchedOrders + [matchedOrder];
          }
        }
        if remainingAmountToMatch == 0 {
          matchedOrders := matchedOrders + [order];
        }
      } else {
        while remainingAmountToMatch < 0 && |buys| > 0 && order.price <= buys[0].price
          invariant sells == old(sells)
          invariant Match(Ask, order.price, order.amount, old(buys))
                    == Resume(matchedOrders, Match(Ask, order.price, remainingAmountToMatch, buys))
          decreases |buys|, if remainingAmountToMatch < 0 then 1 else 0
        {
          MatchStep(Ask, order.price, remainingAmountToMatch, buys, matchedOrders);
          var matchedOrder := buys[0];
          buys := buys[1..];
          if remainingAmountToMatch == -matchedOrder.amount {
            matchedOrders := matchedOrders + [matchedOrder];
            remainingAmountToMatch := 0;
          } else if remainingAmountToMatch > -matchedOrder.amount {
            matchedOrder := matchedOrder.(amount := matchedOrder.amount + remainingAmountToMatch);
            buys := [matchedOrder] + buys;
            remainingAmountToMatch := 0;
          } else {
            remainingAmountToMatch := remainingAmountToMatch + matchedOrder.amount;
            matchedOrders := matchedOrders + [matchedOrder];
          }
        }
        if remainingAmountToMatch == 0 {
          matchedOrders := matchedOrders + [order];
        }
      }
      FulfilKeepsValid(old(Model()), order);
    }

    /** `placeMarketOrder`: match, rest a non-zero residual as an order
        carrying `amount = residual`, and report whether anything matched. */
    method PlaceMarketOrder(order: Order) returns (isFulfilled: bool)
      requires Valid()
      modifies this
      ensures Valid()
      ensures Placement(Model(), isFulfilled) == Place(old(Model()), order)
    {
      var matchedOrders, remainingAmountToMatch := FulfillOrder(order);
      if remainingAmountToMatch != 0 {
        AddOrder(order.(amount := remainingAmountToMatch));
      }
      isFulfilled := |matchedOrders| > 0;
    }

    /** `getOrderBookLength` */
    function GetOrderBookLength(): (n: nat)
      reads this
      ensures n == Size(Model())
    {
      |buys| + |sells|
    }

    /** `getAllOrders`: every resting order, buys first. */
    function GetAllOrders(): (orders: seq<Order>)
      reads this
      ensures |orders| == GetOrderBookLength()
      ensures orders[..|buys|] == buys && orders[|buys|..] == sells
    {
      buys + sells
    }
  }
}
