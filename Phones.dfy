/**
 * Phones that count the calls they take, and the total over a list of
 * phones.  Every phone has its own counter, starting at 0.
 */
module Phones {
  import opened Wrappers

  class Phone {
    var number: Option<string>
    var callCount: nat

    /** A fresh phone has no number and has taken no call. */
    constructor ()
      ensures number == None && callCount == 0
    {
      number := None;
      callCount := 0;
    }

    method SetNumber(newNumber: string)
      modifies this
      ensures number == Some(newNumber)
      ensures callCount == old(callCount)
    {
      number := Some(newNumber);
    }

    /** Reads the counter; with no `modifies` clause it can change nothing. */
    method GetCallCount() returns (count: nat)
      ensures count == callCount
    {
      count := callCount;
    }

    /** Only this phone's counter moves, by exactly one. */
    method TakeCall()
      modifies this
      ensures callCount == old(callCount) + 1
      ensures number == old(number)
    {
      callCount := callCount + 1;
    }
  }

  /** The sum of the counters of `phones`, added from the left. */
  function SumOfCounts(phones: seq<Phone>): (r: nat)
    reads phones
  {
    if phones == [] then 0 else SumOfCounts(phones[..|phones| - 1]) + phones[|phones| - 1].callCount
  }

  lemma {:induction false} SumOfCountsAppend(a: seq<Phone>, b: seq<Phone>)
    ensures SumOfCounts(a + b) == SumOfCounts(a) + SumOfCounts(b)
    decreases |b|
  {
    if b != [] {
      var last := |b| - 1;
      assert (a + b)[..|a + b| - 1] == a + b[..last];
      SumOfCountsAppend(a, b[..last]);
    } else {
      assert a + b == a;
    }
  }

  /** No phone on the list has taken more calls than the list in total. */
  lemma {:induction false} CountWithinTotal(phones: seq<Phone>, i: nat)
    requires i < |phones|
    ensures phones[i].callCount <= SumOfCounts(phones)
  {
    var last := |phones| - 1;
    if i < last {
      CountWithinTotal(phones[..last], i);
    }
  }

  /** Total number of calls taken by the phones on the list; no phone is changed. */
  method TotalCallCount(phones: seq<Phone>) returns (total: nat)
    ensures total == SumOfCounts(phones)
  {
    total := 0;
    for i := 0 to |phones|
      invariant total == SumOfCounts(phones[..i])
    {
      var count := phones[i].GetCallCount();
      assert phones[..i + 1][..i] == phones[..i];
      total := total + count;
    }
    assert phones[..|phones|] == phones;
  }

  lemma SumOfThree(a: Phone, b: Phone, c: Phone)
    ensures SumOfCounts([a, b, c]) == a.callCount + b.callCount + c.callCount
  {
    assert [a][..0] == [];
    assert SumOfCounts([a]) == a.callCount;
    assert [a, b][..1] == [a];
    assert SumOfCounts([a, b]) == a.callCount + b.callCount;
    assert [a, b, c][..2] == [a, b];
  }

  /** The demonstration's calls: three phones get numbers and take 3, 2 and 5 calls. */
  method DemoPhones() returns (phone1: Phone, phone2: Phone, phone3: Phone)
    ensures phone1.callCount == 3 && phone2.callCount == 2 && phone3.callCount == 5
    ensures phone1.number == Some("+42077554433") && phone2.number == Some("+42066234567")
    ensures phone3.number == Some("+42077543210")
  {
    phone1 := new Phone();
    phone2 := new Phone();
    phone3 := new Phone();

    phone1.SetNumber("+42077554433");
    phone2.SetNumber("+42066234567");
    phone3.SetNumber("+42077543210");
    assert phone1.callCount == 0 && phone2.callCount == 0 && phone3.callCount == 0;

    phone1.TakeCall();
    phone1.TakeCall();
    phone1.TakeCall();
    assert phone1.callCount == 3 && phone2.callCount == 0 && phone3.callCount == 0;
    phone2.TakeCall();
    phone2.TakeCall();
    assert phone1.callCount == 3 && phone2.callCount == 2 && phone3.callCount == 0;
    phone3.TakeCall();
    phone3.TakeCall();
    phone3.TakeCall();
    phone3.TakeCall();
    phone3.TakeCall();
  }

  /** The demonstration: the three phones' calls add up to 10. */
  method DemoCallSequence() returns (counts: seq<nat>, total: nat)
    ensures counts == [3, 2, 5]
    ensures total == 10
  {
    var phone1, phone2, phone3 := DemoPhones();
    counts := [phone1.callCount, phone2.callCount, phone3.callCount];
    SumOfThree(phone1, phone2, phone3);
    total := TotalCallCount([phone1, phone2, phone3]);
  }
}
