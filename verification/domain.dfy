/** Entities shared by the expense, approval and budget components, and two operations on
    finite collections that SQL provides to the program: ordering and SUM. */
module Domain {

  /** Serial primary keys start at 1. */
  type Id = x: int | 0 < x witness 1

  datatype Option<+T> = None | Some(value: T)

  datatype Result<+T> = Ok(value: T) | Err(error: Error)

  /** The HTTP exceptions the services throw; each one rolls its transaction back. */
  datatype Error = BadRequest | Forbidden | NotFound | Conflict

  datatype Status = Draft | Submitted | UnderReview | Approved | Rejected | Reimbursed

  datatype Expense = Expense(
    userId: Id,
    departmentId: Option<Id>,
    amount: int,
    status: Status,
    submittedAt: Option<int>)

  predicate Distinct<T(==)>(items: seq<T>) {
    forall i, j :: 0 <= i < j < |items| ==> items[i] != items[j]
  }

  method PickAny<T>(items: set<T>) returns (item: T)
    requires items != {}
    ensures item in items
  {
    item :| item in items;
  }

  /** The least element, which a query ordered by id returns first. */
  function Least(s: set<Id>): (least: Id)
    requires s != {}
    ensures IsLeast(least, s)
  {
    LeastExists(s);
    var least :| least in s && IsLeast(least, s);
    least
  }

  predicate IsLeast(least: Id, s: set<Id>) {
    least in s && forall x :: x in s ==> least <= x
  }

  lemma {:induction false} LeastExists(s: set<Id>)
    requires s != {}
    ensures exists least :: IsLeast(least, s)
    decreases s
  {
    var pick :| pick in s;
    var rest := s - {pick};
    assert s == rest + {pick};
    if rest == {} {
      assert IsLeast(pick, s);
    } else {
      LeastExists(rest);
      var low :| IsLeast(low, rest);
      var least := if low <= pick then low else pick;
      forall x | x in s
        ensures least <= x
      {
        assert x == pick || x in rest;
      }
      assert IsLeast(least, s);
    }
  }

  /** The sum of a column of a finite table. */
  function Total(column: map<Id, int>): int
    decreases |column|
  {
    if column == map[] then 0
    else
      assert exists k :: k in column;
      var k := Least(column.Keys);
      column[k] + Total(column - {k})
  }

  /** The sum does not depend on the order in which rows are read. */
  lemma {:induction false} TotalRemove(column: map<Id, int>, k: Id)
    requires k in column
    ensures Total(column) == column[k] + Total(column - {k})
    decreases |column|
  {
    var least := Least(column.Keys);
    if k != least {
      var without := column - {least};
      assert |without| < |column|;
      TotalRemove(without, k);
      var bare := column - {k};
      assert |bare| < |column|;
      assert least in bare;
      TotalRemove(bare, least);
      assert without - {k} == bare - {least};
    }
  }

  lemma TotalUpdate(column: map<Id, int>, k: Id, value: int)
    ensures Total(column[k := value]) ==
            Total(column) + value - (if k in column then column[k] else 0)
  {
    TotalRemove(column[k := value], k);
    assert column[k := value] - {k} == column - {k};
    if k in column {
      TotalRemove(column, k);
    } else {
      assert column - {k} == column;
    }
  }

  lemma {:induction false} TotalNonNegative(column: map<Id, int>)
    requires forall k :: k in column ==> 0 <= column[k]
    ensures 0 <= Total(column)
    ensures forall k :: k in column ==> column[k] <= Total(column)
    decreases |column|
  {
    if column != map[] {
      var least := Least(column.Keys);
      TotalNonNegative(column - {least});
      forall k | k in column
        ensures column[k] <= Total(column)
      {
        if k != least {
          assert k in column - {least};
        }
      }
    }
  }

  /** The sum of a column is the sum of its parts. */
  lemma {:induction false} TotalSplits(whole: map<Id, int>, one: map<Id, int>, other: map<Id, int>)
    requires one.Keys == whole.Keys == other.Keys
    requires forall k :: k in whole ==> whole[k] == one[k] + other[k]
    ensures Total(whole) == Total(one) + Total(other)
    decreases |whole|
  {
    if whole == map[] {
      assert one == map[] && other == map[];
    } else {
      var k := Least(whole.Keys);
      TotalRemove(one, k);
      TotalRemove(other, k);
      TotalSplits(whole - {k}, one - {k}, other - {k});
    }
  }

  lemma {:induction false} TotalZero(column: map<Id, int>)
    requires forall k :: k in column ==> column[k] == 0
    ensures Total(column) == 0
    decreases |column|
  {
    if column != map[] {
      TotalZero(column - {Least(column.Keys)});
    }
  }
}
