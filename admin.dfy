/** The admin back-office rules: the dashboard's revenue figure and its
    zero-filled seven-day sales series, and the user delete and update
    handlers. */
module Admin {
  import opened Http
  import opened Seqs
  import opened OrderModel

  // ---------------------------------------------------------------------
  // Dashboard figures

  /** The `reduce` over fetched orders: the sum of their total prices. */
  function RevenueOf(orders: seq<Order>): int
    decreases |orders|
  {
    if orders == [] then 0
    else RevenueOf(orders[..|orders| - 1]) + orders[|orders| - 1].totalPrice
  }

  /** The orders the dashboard fetches for its revenue: the paid ones. */
  function PaidOrders(orders: seq<Order>): (r: seq<Order>)
    ensures |r| <= |orders|
    ensures forall i :: 0 <= i < |r| ==> r[i] in orders && r[i].isPaid
    ensures forall i :: 0 <= i < |orders| && orders[i].isPaid ==> orders[i] in r
  {
    Filter(orders, (o: Order) => o.isPaid)
  }

  /** totalRevenue over the order collection. */
  function TotalRevenue(orders: seq<Order>): (r: int)
    ensures (forall i :: 0 <= i < |orders| ==> !orders[i].isPaid) ==> r == 0
  {
    RevenueOf(PaidOrders(orders))
  }

  lemma {:induction false} RevenueAppend(a: seq<Order>, b: seq<Order>)
    ensures RevenueOf(a + b) == RevenueOf(a) + RevenueOf(b)
    decreases |b|
  {
    if b == [] {
      assert a + b == a;
    } else {
      assert (a + b)[..|a + b| - 1] == a + b[..|b| - 1];
      RevenueAppend(a, b[..|b| - 1]);
    }
  }

  lemma RevenueSingle(o: Order)
    ensures RevenueOf([o]) == o.totalPrice
  {
    assert [o][..0] == [];
  }

  /** The dashboard revenue of two order lists taken together is the sum of
      their revenues. */
  lemma TotalRevenueAppend(a: seq<Order>, b: seq<Order>)
    ensures TotalRevenue(a + b) == TotalRevenue(a) + TotalRevenue(b)
  {
    FilterAppend(a, b, (o: Order) => o.isPaid);
    RevenueAppend(PaidOrders(a), PaidOrders(b));
  }

  /** One order counts towards the revenue exactly when it is paid. */
  lemma TotalRevenueSingle(o: Order)
    ensures TotalRevenue([o]) == if o.isPaid then o.totalPrice else 0
  {
    assert [o][1..] == [];
    if o.isPaid {
      RevenueSingle(o);
    }
  }

  /** Marking one unpaid order paid raises the revenue by exactly its total
      price; every other order's contribution is unchanged. */
  lemma MarkPaidRaisesRevenue(orders: seq<Order>, k: int)
    requires 0 <= k < |orders| && !orders[k].isPaid
    ensures TotalRevenue(orders[k := orders[k].(isPaid := true)])
         == TotalRevenue(orders) + orders[k].totalPrice
  {
    var before, after := orders[..k], orders[k + 1..];
    var paid := orders[k].(isPaid := true);
    assert orders == before + [orders[k]] + after;
    assert orders[k := paid] == before + [paid] + after;
    TotalRevenueAppend(before + [orders[k]], after);
    TotalRevenueAppend(before, [orders[k]]);
    TotalRevenueAppend(before + [paid], after);
    TotalRevenueAppend(before, [paid]);
    TotalRevenueSingle(orders[k]);
    TotalRevenueSingle(paid);
  }

  /** One aggregated day: its date (a day number standing for the
      year-month-day key), the revenue and the number of paid orders. */
  datatype SalesRecord = SalesRecord(date: int, revenue: int, orders: int)

  function IndexOfDate(sales: seq<SalesRecord>, date: int): int {
    FirstIndex(sales, (s: SalesRecord) => s.date == date)
  }

  /** The first day of the dashboard window: seven days before `today`
      (day numbers stand for calendar dates). */
  function SevenDaysAgo(today: int): int {
    today - 7
  }

  /** The zero-filled series: seven consecutive days starting seven days
      before `today`, each taking revenue and order count from the first
      aggregated record for that day, or zero for both when there is none.
      The last day is the day before `today`, so today's sales never
      appear. */
  method FilledSalesData(today: int, salesData: seq<SalesRecord>) returns (filled: seq<SalesRecord>)
    ensures |filled| == 7
    ensures forall i :: 0 <= i < 7 ==> filled[i].date == SevenDaysAgo(today) + i
    ensures forall i :: 0 <= i < 7 ==> filled[i].date < today
    ensures filled[6].date == today - 1
    ensures forall i :: 0 <= i < 7 && IndexOfDate(salesData, filled[i].date) >= 0 ==>
              var k := IndexOfDate(salesData, filled[i].date);
              filled[i].revenue == salesData[k].revenue && filled[i].orders == salesData[k].orders
    ensures forall i :: 0 <= i < 7 && IndexOfDate(salesData, filled[i].date) < 0 ==>
              filled[i].revenue == 0 && filled[i].orders == 0
  {
    var sevenDaysAgo := SevenDaysAgo(today);
    filled := [];
    var i := 0;
    while i < 7
      invariant 0 <= i <= 7 && |filled| == i
      invariant forall j :: 0 <= j < i ==> filled[j].date == sevenDaysAgo + j
      invariant forall j :: 0 <= j < i && IndexOfDate(salesData, filled[j].date) >= 0 ==>
                  var k := IndexOfDate(salesData, filled[j].date);
                  filled[j].revenue == salesData[k].revenue && filled[j].orders == salesData[k].orders
      invariant forall j :: 0 <= j < i && IndexOfDate(salesData, filled[j].date) < 0 ==>
                  filled[j].revenue == 0 && filled[j].orders == 0
    {
      var date := sevenDaysAgo + i;
      var k := IndexOfDate(salesData, date);
      var revenue := if k >= 0 then salesData[k].revenue else 0;
      var orders := if k >= 0 then salesData[k].orders else 0;
      filled := filled + [SalesRecord(date, revenue, orders)];
      i := i + 1;
    }
  }

  // ---------------------------------------------------------------------
  // Users

  type UserId = string

  datatype User = User(id: UserId, name: string, email: string, isAdmin: bool, password: string)

  /** The update body: an empty string is a missing (falsy) field, and
      `isAdmin` is None when null or absent. */
  datatype UserUpdate = UserUpdate(name: string, email: string, isAdmin: Option<bool>)

  /** The fields updateUser sends back. */
  datatype UserReply = UserReply(id: UserId, name: string, email: string, isAdmin: bool)

  const MsgUserNotFound: string := "User not found"
  const MsgCannotDeleteAdmin: string := "Cannot delete admin user"
  const MsgUserRemoved: string := "User removed"

  /** The merge updateUser applies: `||` for name and email, `??` for
      isAdmin; the id and the password never change. */
  function MergeUser(u: User, body: UserUpdate): (r: User)
    ensures r.id == u.id && r.password == u.password
    ensures body.name != "" ==> r.name == body.name
    ensures body.name == "" ==> r.name == u.name
    ensures body.email != "" ==> r.email == body.email
    ensures body.email == "" ==> r.email == u.email
    ensures body.isAdmin.Some? ==> r.isAdmin == body.isAdmin.value
    ensures body.isAdmin.None? ==> r.isAdmin == u.isAdmin
  {
    u.(name := if body.name != "" then body.name else u.name,
       email := if body.email != "" then body.email else u.email,
       isAdmin := if body.isAdmin.Some? then body.isAdmin.value else u.isAdmin)
  }

  /** An empty update leaves the user as it was; a supplied `false` demotes
      while an empty name or email keeps the old one; applying the same
      update twice is applying it once. */
  lemma MergeUserLaws(u: User, body: UserUpdate)
    ensures MergeUser(u, UserUpdate("", "", None)) == u
    ensures body.isAdmin == Some(false) ==> !MergeUser(u, body).isAdmin
    ensures body.name == "" ==> MergeUser(u, body).name == u.name
    ensures body.email == "" ==> MergeUser(u, body).email == u.email
    ensures MergeUser(MergeUser(u, body), body) == MergeUser(u, body)
  {
  }

  function Reply(u: User): UserReply {
    UserReply(u.id, u.name, u.email, u.isAdmin)
  }

  class UserStore {
    var users: map<UserId, User>

    constructor (users: map<UserId, User>)
      ensures this.users == users
    {
      this.users := users;
    }

    /** deleteUser: 404 for a missing user, 400 for an admin (nothing
        removed), otherwise the user is removed and nobody else. */
    method DeleteUser(id: UserId) returns (r: Result<string>)
      modifies this
      ensures id !in old(users) ==> r == Err(Error(NotFound, MsgUserNotFound)) && users == old(users)
      ensures id in old(users) && old(users)[id].isAdmin ==>
                r == Err(Error(BadRequest, MsgCannotDeleteAdmin)) && users == old(users)
      ensures id in old(users) && !old(users)[id].isAdmin ==>
                r == Ok(MsgUserRemoved) && users == old(users) - {id}
    {
      if id in users {
        if users[id].isAdmin {
          return Err(Error(BadRequest, MsgCannotDeleteAdmin));
        }
        users := users - {id};
        r := Ok(MsgUserRemoved);
      } else {
        r := Err(Error(NotFound, MsgUserNotFound));
      }
    }

    /** updateUser: 404 for a missing user; otherwise the merged user is
        stored and only its id, name, email and admin flag are returned. */
    method UpdateUser(id: UserId, body: UserUpdate) returns (r: Result<UserReply>)
      modifies this
      ensures id !in old(users) ==> r == Err(Error(NotFound, MsgUserNotFound)) && users == old(users)
      ensures id in old(users) ==>
                && users == old(users)[id := MergeUser(old(users)[id], body)]
                && r == Ok(Reply(users[id]))
    {
      if id !in users {
        return Err(Error(NotFound, MsgUserNotFound));
      }
      var user := users[id];
      user := user.(name := if body.name != "" then body.name else user.name);
      user := user.(email := if body.email != "" then body.email else user.email);
      user := user.(isAdmin := if body.isAdmin.Some? then body.isAdmin.value else user.isAdmin);
      users := users[id := user];
      r := Ok(Reply(user));
    }
  }
}
