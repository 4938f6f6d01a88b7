/** getConnectItems (connect.go:160-181): split the capability replies of a
    "connect" payload into the items that succeeded and one joined error for
    the items that failed. */
module Items {
  import opened Wire
  import opened Errors

  /** The items without an error, in input order. */
  function Successes(items: seq<ItemReply>): (r: seq<ItemReply>)
    ensures |r| <= |items|
    ensures forall i :: 0 <= i < |r| ==> r[i].error.None? && r[i] in items
    decreases |items|
  {
    if items == [] then []
    else
      var last := items[|items| - 1];
      Successes(items[..|items| - 1]) + (if last.error.None? then [last] else [])
  }

  /** The mapped error of every item that carries one, in input order. */
  function ItemErrors(items: seq<ItemReply>): (r: seq<Error>)
    ensures |r| <= |items|
    ensures forall i :: 0 <= i < |r| ==> r[i].Explicit? || r[i].MethodNotSupported? || r[i].MethodUnknownError?
    decreases |items|
  {
    if items == [] then []
    else
      var last := items[|items| - 1];
      ItemErrors(items[..|items| - 1]) +
        (if last.error.Some? then [ItemError(last.name, last.error.value)] else [])
  }

  /** getConnectItems: the loop appends each item to the success list or its
      mapped error to the error list, then joins the errors. */
  method GetConnectItems(items: seq<ItemReply>) returns (res: seq<ItemReply>, err: Option<Failure>)
    ensures res == Successes(items)
    ensures err == Join(ItemErrors(items))
  {
    var errs: seq<Error> := [];
    res := [];
    for i := 0 to |items|
      invariant res == Successes(items[..i])
      invariant errs == ItemErrors(items[..i])
    {
      var item := items[i];
      assert items[..i + 1][..i] == items[..i];
      if item.error.Some? {
        errs := errs + [ItemError(item.name, item.error.value)];
      } else {
        res := res + [item];
      }
    }
    assert items[..|items|] == items;
    err := Join(errs);
  }

  /** Both lists distribute over concatenation: the split keeps input order
      and decides each item on its own. */
  lemma SplitDistributes(a: seq<ItemReply>, b: seq<ItemReply>)
    ensures Successes(a + b) == Successes(a) + Successes(b)
    ensures ItemErrors(a + b) == ItemErrors(a) + ItemErrors(b)
  {
    SuccessesDistribute(a, b);
    ItemErrorsDistribute(a, b);
  }

  lemma {:induction false} SuccessesDistribute(a: seq<ItemReply>, b: seq<ItemReply>)
    ensures Successes(a + b) == Successes(a) + Successes(b)
    decreases |b|
  {
    if b == [] {
      assert a + b == a;
    } else {
      var b', last := b[..|b| - 1], b[|b| - 1];
      var tail := if last.error.None? then [last] else [];
      SuccessesDistribute(a, b');
      assert (a + b)[..|a + b| - 1] == a + b';
      assert (a + b)[|a + b| - 1] == last;
      calc {
        Successes(a + b);
        Successes(a + b') + tail;
        Successes(a) + Successes(b') + tail;
        Successes(a) + (Successes(b') + tail);
        Successes(a) + Successes(b);
      }
    }
  }

  lemma {:induction false} ItemErrorsDistribute(a: seq<ItemReply>, b: seq<ItemReply>)
    ensures ItemErrors(a + b) == ItemErrors(a) + ItemErrors(b)
    decreases |b|
  {
    if b == [] {
      assert a + b == a;
    } else {
      var b', last := b[..|b| - 1], b[|b| - 1];
      var tail := if last.error.Some? then [ItemError(last.name, last.error.value)] else [];
      ItemErrorsDistribute(a, b');
      assert (a + b)[..|a + b| - 1] == a + b';
      assert (a + b)[|a + b| - 1] == last;
      calc {
        ItemErrors(a + b);
        ItemErrors(a + b') + tail;
        ItemErrors(a) + ItemErrors(b') + tail;
        ItemErrors(a) + (ItemErrors(b') + tail);
        ItemErrors(a) + ItemErrors(b);
      }
    }
  }

  /** A single reply lands in exactly one of the two lists. */
  lemma SplitOne(item: ItemReply)
    ensures Successes([item]) == (if item.error.None? then [item] else [])
    ensures ItemErrors([item]) == (if item.error.Some? then [ItemError(item.name, item.error.value)] else [])
  {
    assert [item][..0] == [];
  }

  /** Every reply is counted once: successes plus errors is the input length. */
  lemma {:induction false} SplitCounts(items: seq<ItemReply>)
    ensures |Successes(items)| + |ItemErrors(items)| == |items|
    decreases |items|
  {
    if items != [] {
      SplitCounts(items[..|items| - 1]);
    }
  }

  /** The success list holds exactly the error-free replies. */
  lemma {:induction false} SuccessesExactly(items: seq<ItemReply>, x: ItemReply)
    ensures x in Successes(items) <==> x in items && x.error.None?
    decreases |items|
  {
    if items != [] {
      var init := items[..|items| - 1];
      SuccessesExactly(init, x);
      assert items == init + [items[|items| - 1]];
    }
  }

  /** No reply carries an error exactly when the error list is empty. */
  lemma {:induction false} NoErrorsIff(items: seq<ItemReply>)
    ensures ItemErrors(items) == [] <==> forall i :: 0 <= i < |items| ==> items[i].error.None?
    decreases |items|
  {
    if items != [] {
      var init := items[..|items| - 1];
      NoErrorsIff(init);
      assert forall i :: 0 <= i < |init| ==> init[i] == items[i];
    }
  }

  /** When every reply succeeds, the success list is the input itself. */
  lemma {:induction false} AllSucceed(items: seq<ItemReply>)
    requires forall i :: 0 <= i < |items| ==> items[i].error.None?
    ensures Successes(items) == items
    decreases |items|
  {
    if items != [] {
      var init := items[..|items| - 1];
      AllSucceed(init);
      assert items == init + [items[|items| - 1]];
    }
  }

  /** The joined error is absent exactly when no reply carries an error,
      that is, exactly when every reply is in the success list. */
  lemma {:induction false} JoinAbsentIff(items: seq<ItemReply>)
    ensures Join(ItemErrors(items)).None? <==> forall i :: 0 <= i < |items| ==> items[i].error.None?
    ensures Join(ItemErrors(items)).None? <==> Successes(items) == items
  {
    NoErrorsIff(items);
    SplitCounts(items);
    if forall i :: 0 <= i < |items| ==> items[i].error.None? {
      AllSucceed(items);
    }
  }

  /** The replies of a connect payload with one success and one unsupported
      method give that success and a joined error naming the method. */
  lemma PartialSuccessExample()
    ensures Successes([ItemReply("a", None), ItemReply("b", Some(WireError(400, "")))])
         == [ItemReply("a", None)]
    ensures Join(ItemErrors([ItemReply("a", None), ItemReply("b", Some(WireError(400, "")))]))
         == Some(JoinedErrors([MethodNotSupported("b")]))
  {
    var ok, bad := ItemReply("a", None), ItemReply("b", Some(WireError(400, "")));
    var items := [ok, bad];
    assert items[..1] == [ok] && items[1] == bad;
    assert [ok][..0] == [];
    assert Successes([ok]) == [ok];
    assert ItemErrors([ok]) == [];
    assert Successes(items) == [ok];
    assert ItemErrors(items) == [MethodNotSupported("b")];
  }
}
