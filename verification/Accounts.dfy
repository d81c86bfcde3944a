/** The traders map of src/trader.c as a value: 64 slots, reference counts, sessions and 32-bit
    accounts. The class that updates it in place is in TraderMaps.dfy. */
module Accounts {

  const MAX_TRADERS := 64

  type u32 = x: int | 0 <= x < 0x1_0000_0000

  /** What a 32-bit field keeps of x, and how often the sum went past its end: remainder and quotient
      by 2^32 (see LowAndCarry), written as repeated subtraction to keep the proofs linear. */
  function Low(x: nat): u32
  {
    if x < 0x1_0000_0000 then x else Low(x - 0x1_0000_0000)
  }

  function Carry(x: nat): nat
  {
    if x < 0x1_0000_0000 then 0 else 1 + Carry(x - 0x1_0000_0000)
  }

  lemma {:induction false} LowAndCarry(x: nat)
    ensures Low(x) == x % 0x1_0000_0000 && Carry(x) == x / 0x1_0000_0000
  {
    if 0x1_0000_0000 <= x {
      LowAndCarry(x - 0x1_0000_0000);
    }
  }

  datatype Option<+T> = None | Some(value: T)

  /** A TRADER. `balanceWraps` and `inventoryWraps` are history: how often `+=` on the 32-bit field
      has carried out. A logged-out trader has fd -1. */
  datatype Account = Account(
    name: string, ref: int, fd: int, balance: u32, inventory: u32,
    balanceWraps: nat, inventoryWraps: nat)

  /** `all_traders` and `count`; a trader is known by its slot. */
  datatype Traders = Traders(slots: seq<Option<Account>>, count: int)

  function FindFirst<T>(s: seq<T>, p: T -> bool): (i: int)
    ensures -1 <= i < |s|
    ensures 0 <= i ==> p(s[i])
    ensures forall j :: 0 <= j < (if i == -1 then |s| else i) ==> !p(s[j])
  {
    if s == [] then -1
    else if p(s[0]) then 0
    else
      var j := FindFirst(s[1..], p);
      if j == -1 then -1 else j + 1
  }

  lemma FirstIs<T>(s: seq<T>, p: T -> bool, i: nat)
    requires i < |s| && p(s[i]) && forall j :: 0 <= j < i ==> !p(s[j])
    ensures FindFirst(s, p) == i
  {
  }

  lemma NoneIs<T>(s: seq<T>, p: T -> bool)
    requires forall j :: 0 <= j < |s| ==> !p(s[j])
    ensures FindFirst(s, p) == -1
  {
  }

  function Named(name: string): Option<Account> -> bool
  {
    (o: Option<Account>) => o.Some? && o.value.name == name
  }

  predicate Free(o: Option<Account>)
  {
    o.None?
  }

  predicate Live(ts: Traders, k: int)
  {
    0 <= k < |ts.slots| && ts.slots[k].Some?
  }

  function Put(ts: Traders, k: nat, a: Account): Traders
    requires k < |ts.slots|
  {
    ts.(slots := ts.slots[k := Some(a)])
  }

  function Acct(ts: Traders, k: nat): Account
    requires Live(ts, k)
  {
    ts.slots[k].value
  }

  function Ref(ts: Traders, k: nat): Traders
    requires Live(ts, k)
  {
    Put(ts, k, Acct(ts, k).(ref := Acct(ts, k).ref + 1))
  }

  /** `trader_unref` with `removeTraderIfEmpty`: at zero the first slot of that name is emptied. */
  function Unref(ts: Traders, k: nat): Traders
    requires Live(ts, k)
  {
    var a := Acct(ts, k);
    var ts' := Put(ts, k, a.(ref := a.ref - 1));
    if a.ref == 1 then
      var i := FindFirst(ts'.slots, Named(a.name));
      assert Named(a.name)(ts'.slots[k]);
      ts'.(slots := ts'.slots[i := None])
    else ts'
  }

  /** `trader_login`: the slot of the trader, or -1 for NULL. A known name takes a reference before
      its session is looked at; a refused one does not give it back. */
  function Login(ts: Traders, fd: int, name: string): (Traders, int)
  {
    var known := FindFirst(ts.slots, Named(name));
    if known != -1 then
      var ts' := Ref(ts, known);
      if Acct(ts, known).fd != -1 then (ts', -1)
      else (Put(ts', known, Acct(ts', known).(fd := fd)), known)
    else if ts.count >= MAX_TRADERS then (ts, -1)
    else
      var ts' := ts.(count := ts.count + 1);
      var i := FindFirst(ts.slots, Free);
      if i == -1 then (ts', -1)
      else (Put(ts', i, Account(name, 2, fd, 0, 0, 0, 0)), i)
  }

  /** `trader_logout`. */
  function Logout(ts: Traders, k: nat): Traders
    requires Live(ts, k)
  {
    var ts' := Unref(ts, k);
    if Live(ts', k) then Put(ts', k, Acct(ts', k).(fd := -1)) else ts'
  }

  function IncreaseBalance(ts: Traders, k: nat, amount: nat): Traders
    requires Live(ts, k)
  {
    var a := Acct(ts, k);
    var sum := a.balance + amount;
    Put(ts, k, a.(balance := Low(sum), balanceWraps := a.balanceWraps + Carry(sum)))
  }

  function DecreaseBalance(ts: Traders, k: nat, amount: nat): (Traders, bool)
    requires Live(ts, k)
  {
    var a := Acct(ts, k);
    if a.balance >= amount then (Put(ts, k, a.(balance := a.balance - amount)), true) else (ts, false)
  }

  function IncreaseInventory(ts: Traders, k: nat, quantity: nat): Traders
    requires Live(ts, k)
  {
    var a := Acct(ts, k);
    var sum := a.inventory + quantity;
    Put(ts, k, a.(inventory := Low(sum), inventoryWraps := a.inventoryWraps + Carry(sum)))
  }

  function DecreaseInventory(ts: Traders, k: nat, quantity: nat): (Traders, bool)
    requires Live(ts, k)
  {
    var a := Acct(ts, k);
    if a.inventory >= quantity then (Put(ts, k, a.(inventory := a.inventory - quantity)), true) else (ts, false)
  }

  function NoTraders(): Traders
  {
    Traders(seq(MAX_TRADERS, _ => None), 0)
  }

  /** The shape of the map: its entries are exactly the first `count` slots, with distinct names. */
  ghost predicate Packed(ts: Traders)
  {
    && |ts.slots| == MAX_TRADERS && 0 <= ts.count <= MAX_TRADERS
    && (forall k :: 0 <= k < MAX_TRADERS ==> (ts.slots[k].Some? <==> k < ts.count))
    && (forall i, j :: 0 <= i < j < ts.count ==> ts.slots[i].value.name != ts.slots[j].value.name)
  }

  lemma PutKeepsPacked(ts: Traders, k: nat, a: Account)
    requires Packed(ts) && Live(ts, k) && a.name == Acct(ts, k).name
    ensures Packed(Put(ts, k, a))
  {
  }

  /** In a packed map a login uses the old `count` as index, and never finds the array full. */
  lemma FreshLogin(ts: Traders, fd: int, name: string)
    requires Packed(ts) && FindFirst(ts.slots, Named(name)) == -1
    ensures Packed(Login(ts, fd, name).0)
    ensures ts.count < MAX_TRADERS ==> FindFirst(ts.slots, Free) == ts.count == Login(ts, fd, name).1
  {
    if ts.count < MAX_TRADERS {
      FirstIs(ts.slots, Free, ts.count);
      assert forall i :: 0 <= i < ts.count ==> !Named(name)(ts.slots[i]);
    }
  }

  lemma RepeatedLogin(ts: Traders, fd: int, name: string)
    requires Packed(ts) && FindFirst(ts.slots, Named(name)) != -1
    ensures Packed(Login(ts, fd, name).0) && Login(ts, fd, name).0.count == ts.count
  {
    var known := FindFirst(ts.slots, Named(name));
    PutKeepsPacked(ts, known, Acct(ts, known).(ref := Acct(ts, known).ref + 1));
    var ts' := Ref(ts, known);
    PutKeepsPacked(ts', known, Acct(ts', known).(fd := fd));
  }

  /** The slot that `removeTraderIfEmpty` and `trader_logout` find by name is the trader's own. */
  lemma FoundByName(ts: Traders, k: nat)
    requires Packed(ts) && Live(ts, k)
    ensures FindFirst(ts.slots, Named(Acct(ts, k).name)) == k
  {
    FirstIs(ts.slots, Named(Acct(ts, k).name), k);
  }

  /** Should a count reach zero, the trader that is removed is the trader itself, never a namesake. */
  lemma UnrefRemovesItself(ts: Traders, k: nat)
    requires Packed(ts) && Live(ts, k) && Acct(ts, k).ref == 1
    ensures Unref(ts, k) == ts.(slots := ts.slots[k := None])
  {
    var a := Acct(ts, k).(ref := 0);
    PutKeepsPacked(ts, k, a);
    FoundByName(Put(ts, k, a), k);
    assert Put(ts, k, a).slots[k := None] == ts.slots[k := None];
  }
}
