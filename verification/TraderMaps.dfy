/** The traders map of src/trader.c updated in place: an array of pointers to accounts. Every
    operation is proved to be the one on values in module Accounts. */
module TraderMaps {
  import opened Accounts

  /** struct trader. */
  class Trader {
    var ref: int
    var fd: int
    var balance: u32
    var inventory: u32
    var name: string
    ghost var balanceWraps: nat
    ghost var inventoryWraps: nat

    ghost function View(): Account
      reads this
    {
      Account(name, ref, fd, balance, inventory, balanceWraps, inventoryWraps)
    }

    /** A trader as `trader_login` fills it in; the reference count starts from 0. */
    constructor (fd: int, name: string)
      ensures View() == Account(name, 0, fd, 0, 0, 0, 0)
    {
      this.ref, this.fd, this.name := 0, fd, name;
      this.balance, this.inventory := 0, 0;
      this.balanceWraps, this.inventoryWraps := 0, 0;
    }

    /** `trader_ref`. */
    method TakeRef()
      modifies this
      ensures View() == old(View()).(ref := old(ref) + 1)
    {
      ref := ref + 1;
    }

    /** `trader_increase_balance`: `+=` on a 32-bit field, unchecked. */
    method IncreaseBalance(amount: u32)
      modifies this
      ensures var sum := old(balance) + amount;
        View() == old(View()).(balance := Low(sum), balanceWraps := old(balanceWraps) + Carry(sum))
    {
      LowAndCarry(balance + amount);
      balanceWraps := balanceWraps + (balance + amount) / 0x1_0000_0000;
      balance := (balance + amount) % 0x1_0000_0000;
    }

    /** `trader_decrease_balance`: 0, or -1 with nothing changed exactly when the funds are not there. */
    method DecreaseBalance(amount: u32) returns (r: int)
      modifies this
      ensures r == if old(balance) < amount then -1 else 0
      ensures View() == if r == 0 then old(View()).(balance := old(balance) - amount) else old(View())
    {
      if balance >= amount {
        balance := balance - amount;
        return 0;
      }
      return -1;
    }

    /** `trader_increase_inventory`. */
    method IncreaseInventory(quantity: u32)
      modifies this
      ensures var sum := old(inventory) + quantity;
        View() == old(View()).(inventory := Low(sum), inventoryWraps := old(inventoryWraps) + Carry(sum))
    {
      LowAndCarry(inventory + quantity);
      inventoryWraps := inventoryWraps + (inventory + quantity) / 0x1_0000_0000;
      inventory := (inventory + quantity) % 0x1_0000_0000;
    }

    /** `trader_decrease_inventory`. */
    method DecreaseInventory(quantity: u32) returns (r: int)
      modifies this
      ensures r == if old(inventory) < quantity then -1 else 0
      ensures View() == if r == 0 then old(View()).(inventory := old(inventory) - quantity) else old(View())
    {
      if inventory >= quantity {
        inventory := inventory - quantity;
        return 0;
      }
      return -1;
    }
  }

  /** A new trader with its two references: one for the map, one for the session. */
  method NewTrader(fd: int, name: string) returns (created: Trader)
    ensures fresh(created) && created.View() == Account(name, 2, fd, 0, 0, 0, 0)
  {
    created := new Trader(fd, name);
    created.TakeRef();
    created.TakeRef();
  }

  ghost function ViewOf(t: Trader?): Option<Account>
    reads t
  {
    if t == null then None else Some(t.View())
  }

  ghost function ViewAll(all: seq<Trader?>): (v: seq<Option<Account>>)
    reads all
    ensures |v| == |all| && forall i :: 0 <= i < |all| ==> v[i] == ViewOf(all[i])
  {
    seq(|all|, i requires 0 <= i < |all| reads all => ViewOf(all[i]))
  }

  /** `all_traders` and `count`. */
  class TraderMap {
    const all: array<Trader?>
    var count: int

    ghost predicate Valid()
      reads this, all
    {
      && all.Length == MAX_TRADERS
      && forall i, j :: 0 <= i < j < all.Length && all[i] != null ==> all[i] != all[j]
    }

    ghost function View(): Traders
      reads this, all, all[..]
    {
      Traders(ViewAll(all[..]), count)
    }

    /** `trader_init`. */
    constructor ()
      ensures Valid() && fresh(all) && View() == NoTraders()
    {
      all := new Trader?[MAX_TRADERS];
      count := 0;
      new;
      for i := 0 to MAX_TRADERS
        invariant count == 0 && forall j :: 0 <= j < i ==> all[j] == null
      {
        all[i] := null;
      }
      assert ViewAll(all[..]) == NoTraders().slots;
    }

    /** Nothing but slot k, or the trader in it, has changed. */
    twostate lemma OneSlot(k: nat)
      requires k < all.Length
      requires forall j :: 0 <= j < all.Length && j != k ==>
        all[j] == old(all[j]) && (all[j] != null ==> unchanged(all[j]))
      ensures View().slots == old(View()).slots[k := ViewOf(all[k])]
    {
    }

    twostate lemma NoSlot()
      requires forall j :: 0 <= j < all.Length ==> all[j] == old(all[j]) && (all[j] != null ==> unchanged(all[j]))
      ensures View().slots == old(View()).slots
    {
    }

    // The operations on one trader, seen from the map.

    method RefAt(k: nat)
      requires Valid() && k < MAX_TRADERS && all[k] != null
      modifies all[k]
      ensures View() == Accounts.Ref(old(View()), k)
    {
      all[k].TakeRef();
      OneSlot(k);
    }

    method IncreaseBalanceAt(k: nat, amount: u32)
      requires Valid() && k < MAX_TRADERS && all[k] != null
      modifies all[k]
      ensures View() == Accounts.IncreaseBalance(old(View()), k, amount)
    {
      all[k].IncreaseBalance(amount);
      OneSlot(k);
    }

    method DecreaseBalanceAt(k: nat, amount: u32) returns (r: int)
      requires Valid() && k < MAX_TRADERS && all[k] != null
      modifies all[k]
      ensures (View(), r == 0) == Accounts.DecreaseBalance(old(View()), k, amount)
      ensures r != 0 ==> View() == old(View())
    {
      r := all[k].DecreaseBalance(amount);
      OneSlot(k);
      if r != 0 {
        assert View().slots == old(View()).slots;
      }
    }

    method IncreaseInventoryAt(k: nat, quantity: u32)
      requires Valid() && k < MAX_TRADERS && all[k] != null
      modifies all[k]
      ensures View() == Accounts.IncreaseInventory(old(View()), k, quantity)
    {
      all[k].IncreaseInventory(quantity);
      OneSlot(k);
    }

    method DecreaseInventoryAt(k: nat, quantity: u32) returns (r: int)
      requires Valid() && k < MAX_TRADERS && all[k] != null
      modifies all[k]
      ensures (View(), r == 0) == Accounts.DecreaseInventory(old(View()), k, quantity)
      ensures r != 0 ==> View() == old(View())
    {
      r := all[k].DecreaseInventory(quantity);
      OneSlot(k);
      if r != 0 {
        assert View().slots == old(View()).slots;
      }
    }

    /** The first slot with a trader of that name, or -1. */
    method SlotNamed(name: string) returns (slot: int)
      requires Valid()
      ensures slot == FindFirst(View().slots, Named(name))
    {
      for i := 0 to MAX_TRADERS
        invariant forall j :: 0 <= j < i ==> !Named(name)(View().slots[j])
      {
        if all[i] != null && all[i].name == name {
          FirstIs(View().slots, Named(name), i);
          return i;
        }
      }
      NoneIs(View().slots, Named(name));
      return -1;
    }

    /** `checkOldTraderAndLogin`: the trader of that name with one more reference, or null. */
    method CheckOldTraderAndLogin(fd: int, name: string) returns (trader: Trader?, slot: int)
      requires Valid()
      modifies all[..]
      ensures Valid() && slot == FindFirst(old(View()).slots, Named(name))
      ensures View() == if slot == -1 then old(View()) else Accounts.Ref(old(View()), slot)
      ensures trader == if slot == -1 then null else all[slot]
    {
      slot := SlotNamed(name);
      if slot == -1 {
        return null, -1;
      }
      RefAt(slot);
      return all[slot], slot;
    }

    /** `getFirstAvailableIndex`. */
    method GetFirstAvailableIndex() returns (index: int)
      requires Valid()
      ensures index == FindFirst(View().slots, Free)
    {
      for i := 0 to MAX_TRADERS
        invariant forall j :: 0 <= j < i ==> !Free(View().slots[j])
      {
        if all[i] == null {
          FirstIs(View().slots, Free, i);
          return i;
        }
      }
      NoneIs(View().slots, Free);
      return -1;
    }

    /** `trader_login`: the trader, or null when the name has a session or the map is full. */
    method Login(fd: int, name: string) returns (trader: Trader?, slot: int)
      requires Valid()
      modifies this, all, all[..]
      ensures Valid() && forall j :: 0 <= j < MAX_TRADERS ==> all[j] == old(all[j]) || (all[j] != null && fresh(all[j]))
      ensures (View(), slot) == Accounts.Login(old(View()), fd, name)
      ensures trader == if slot == -1 then null else all[slot]
    {
      var oldTrader, known := CheckOldTraderAndLogin(fd, name);
      if oldTrader != null {
        if oldTrader.fd != -1 {
          return null, -1;
        }
        label L:
        oldTrader.fd := fd;
        OneSlot@L(known);
        return oldTrader, known;
      }
      if count >= MAX_TRADERS {
        return null, -1;
      }
      trader, slot := AddTrader(fd, name);
    }

    method PlaceAt(i: nat, created: Trader)
      requires Valid() && i < MAX_TRADERS && created !in all[..]
      modifies all
      ensures Valid() && View().slots == old(View()).slots[i := Some(created.View())]
      ensures all[..] == old(all[..])[i := created]
    {
      all[i] := created;
      OneSlot(i);
    }

    /** The part of `trader_login` that adds a new trader. */
    method AddTrader(fd: int, name: string) returns (trader: Trader?, slot: int)
      requires Valid()
      modifies this, all
      ensures Valid() && count == old(count) + 1
      ensures forall j :: 0 <= j < MAX_TRADERS ==> all[j] == old(all[j]) || (all[j] != null && fresh(all[j]))
      ensures slot == FindFirst(old(View()).slots, Free)
      ensures View().slots ==
        if slot == -1 then old(View()).slots else old(View()).slots[slot := Some(Account(name, 2, fd, 0, 0, 0, 0))]
      ensures trader == if slot == -1 then null else all[slot]
    {
      count := count + 1;
      var created := NewTrader(fd, name);
      hide ViewAll, ViewOf, FindFirst, Free;
      NoSlot();
      var i := GetFirstAvailableIndex();
      if i == -1 {
        return null, -1;
      }
      PlaceAt(i, created);
      return created, i;
    }

    /** `removeTraderIfEmpty`. */
    method RemoveTraderIfEmpty(trader: Trader)
      requires Valid()
      modifies all
      ensures Valid() && forall j :: 0 <= j < MAX_TRADERS ==> all[j] == old(all[j]) || all[j] == null
      ensures var i := FindFirst(old(View()).slots, Named(trader.name));
        View() ==
          if trader.ref != 0 || i == -1 then old(View()) else old(View()).(slots := old(View()).slots[i := None])
    {
      if trader.ref != 0 {
        return;
      }
      for i := 0 to MAX_TRADERS
        invariant all[..] == old(all[..])
        invariant forall j :: 0 <= j < i ==> !Named(trader.name)(View().slots[j])
      {
        if all[i] != null && all[i].name == trader.name {
          FirstIs(View().slots, Named(trader.name), i);
          all[i] := null;
          OneSlot(i);
          return;
        }
      }
      NoneIs(View().slots, Named(trader.name));
    }

    /** `trader_unref`. */
    method Unref(trader: Trader, ghost k: nat)
      requires Valid() && k < MAX_TRADERS && all[k] == trader
      modifies trader, all
      ensures Valid() && forall j :: 0 <= j < MAX_TRADERS ==> all[j] == old(all[j]) || all[j] == null
      ensures View() == Accounts.Unref(old(View()), k)
    {
      trader.ref := trader.ref - 1;
      OneSlot(k);
      RemoveTraderIfEmpty(trader);
    }

    /** `trader_logout`: the reference of the session goes, the session ends. */
    method Logout(trader: Trader, ghost k: nat)
      requires Valid() && k < MAX_TRADERS && all[k] == trader
      modifies trader, all
      ensures Valid() && forall j :: 0 <= j < MAX_TRADERS ==> all[j] == old(all[j]) || all[j] == null
      ensures View() == Accounts.Logout(old(View()), k)
    {
      for i := 0 to MAX_TRADERS
        invariant View() == old(View()) && Valid() && all[..] == old(all[..])
        invariant i <= k
      {
        if all[i] != null && all[i].name == trader.name {
          Unref(trader, k);
          label L:
          trader.fd := -1;
          OneSlot@L(k);
          return;
        }
      }
    }
  }
}
