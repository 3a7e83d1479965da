/**
 * The module-level `symbolsDictionary` of exchanges/hitbtc.js, the on-connect
 * routine `connectSocket` installs (discover the symbols, record each one's
 * display name, subscribe to its trades), and `getSymbolName`.
 */
module HitbtcSymbols {
  import opened Wrappers
  import opened Dictionaries
  import opened HitbtcSocket

  /** One symbol of the `getSymbols` result. */
  datatype HitbtcSymbol = HitbtcSymbol(id: string, baseCurrency: string, quoteCurrency: string)

  /** The `symbolsDictionary[s.id] = ...` writes for a list of symbols, in order. */
  function SymbolWrites(symbols: seq<HitbtcSymbol>): (writes: seq<(string, string)>)
    ensures |writes| == |symbols|
  {
    seq(|symbols|, i requires 0 <= i < |symbols| =>
      (symbols[i].id, DisplayName(symbols[i].baseCurrency, symbols[i].quoteCurrency)))
  }

  /** The ids of a list of symbols, in order: the `subscribeTrades` requests sent for them. */
  function SymbolIds(symbols: seq<HitbtcSymbol>): (ids: seq<string>)
    ensures |ids| == |symbols|
  {
    seq(|symbols|, i requires 0 <= i < |symbols| => symbols[i].id)
  }

  /**
   * How many symbols the on-connect loop reaches when the k-th `subscribeTrades`
   * request succeeds exactly when `acks[k]`: it stops right after the first one
   * that fails, or at the end of the list.
   */
  function Reached(acks: seq<bool>): (n: nat)
    ensures n <= |acks|
    ensures forall k :: 0 <= k < n - 1 ==> acks[k]
    ensures n < |acks| ==> 0 < n && !acks[n - 1]
    ensures (forall k :: 0 <= k < |acks| ==> acks[k]) ==> n == |acks|
  {
    if acks == [] then 0
    else if !acks[0] then 1
    else 1 + Reached(acks[1..])
  }

  /**
   * `String(items)` for an array of strings, as a property key: the items joined
   * with commas. `getSymbolName` is called with `[trades.symbol]`.
   */
  function ArrayKey(items: seq<string>): string
  {
    if items == [] then ""
    else if |items| == 1 then items[0]
    else items[0] + "," + ArrayKey(items[1..])
  }

  /** A one-element array names the same property as its element. */
  lemma SingletonArrayKey(s: string)
    ensures ArrayKey([s]) == s
  {
  }

  /** `symbolsDictionary`, shared by every connection the process makes. */
  class SymbolDirectory {
    var names: map<string, string>

    constructor ()
      ensures names == map[]
    {
      names := map[];
    }

    /** `getSymbolName(symbol)`: `None` is `undefined`. */
    function SymbolName(symbol: string): (r: Option<string>)
      reads this
      ensures r.Some? <==> symbol in names
      ensures r.Some? ==> r.value == names[symbol]
    {
      Lookup(names, symbol)
    }

    /**
     * The on-connect routine. `discovery` is how `request('getSymbols')` settled, and
     * `acks[k]` whether the k-th `subscribeTrades` request resolved. A failed discovery
     * changes nothing. Otherwise each reached symbol's display name is written, in
     * order, and a subscription is sent for it; the first failed request ends the loop
     * and is swallowed. Nothing is ever removed from the dictionary.
     */
    method OnConnected(discovery: Result<seq<HitbtcSymbol>, Reason>, acks: seq<bool>)
      returns (subscribed: seq<string>)
      requires discovery.Success? ==> |acks| == |discovery.value|
      modifies this
      ensures discovery.Failure? ==> names == old(names) && subscribed == []
      ensures discovery.Success? ==>
        var reached := discovery.value[..Reached(acks)];
        && subscribed == SymbolIds(reached)
        && names == Assign(old(names), SymbolWrites(reached))
      ensures old(names).Keys <= names.Keys
    {
      subscribed := [];
      if discovery.Failure? {
        return;
      }
      var symbols := discovery.value;
      var i := 0;
      while i < |symbols|
        invariant 0 <= i <= |symbols|
        invariant forall k :: 0 <= k < i ==> acks[k]
        invariant subscribed == SymbolIds(symbols[..i])
        invariant names == Assign(old(names), SymbolWrites(symbols[..i]))
      {
        var s := symbols[i];
        AssignSnoc(old(names), SymbolWrites(symbols[..i]), s.id, DisplayName(s.baseCurrency, s.quoteCurrency));
        assert SymbolWrites(symbols[..i + 1]) == SymbolWrites(symbols[..i]) + [(s.id, DisplayName(s.baseCurrency, s.quoteCurrency))];
        assert SymbolIds(symbols[..i + 1]) == SymbolIds(symbols[..i]) + [s.id];
        names := names[s.id := DisplayName(s.baseCurrency, s.quoteCurrency)];
        subscribed := subscribed + [s.id];
        if !acks[i] {
          assert Reached(acks) == i + 1;
          AssignKeys(old(names), SymbolWrites(symbols[..i + 1]));
          return;
        }
        i := i + 1;
      }
      assert symbols[..i] == symbols;
      AssignKeys(old(names), SymbolWrites(symbols));
    }
  }

  /**
   * Across reconnects the dictionary only accumulates: running the loop over one
   * symbol list and then over another is one loop over both, so a symbol keeps the
   * name it was given last.
   */
  lemma {:induction false} ReconnectsAccumulate(
    names: map<string, string>, before: seq<HitbtcSymbol>, after: seq<HitbtcSymbol>)
    ensures Assign(Assign(names, SymbolWrites(before)), SymbolWrites(after))
         == Assign(names, SymbolWrites(before + after))
  {
    assert SymbolWrites(before + after) == SymbolWrites(before) + SymbolWrites(after);
    AssignConcat(names, SymbolWrites(before), SymbolWrites(after));
  }

  /** After the loop, a symbol the loop reached is named by the last reached entry with its id. */
  lemma NamesAfterConnect(names: map<string, string>, reached: seq<HitbtcSymbol>, i: int)
    requires LastWrite(SymbolWrites(reached), i)
    ensures var after := Assign(names, SymbolWrites(reached));
      && reached[i].id in after
      && after[reached[i].id] == DisplayName(reached[i].baseCurrency, reached[i].quoteCurrency)
  {
    AssignLastWrite(names, SymbolWrites(reached), i);
  }

  /** A symbol the loop did not reach keeps its earlier name, and stays unnamed if it had none. */
  lemma UnreachedNamesKept(names: map<string, string>, reached: seq<HitbtcSymbol>, other: string)
    requires forall j :: 0 <= j < |reached| ==> reached[j].id != other
    ensures var after := Assign(names, SymbolWrites(reached));
      (other in after <==> other in names) && (other in names ==> after[other] == names[other])
  {
    var writes := SymbolWrites(reached);
    assert other !in KeysOf(writes);
    AssignKeys(names, writes);
    if other in names {
      AssignKeepsOthers(names, writes, other);
    }
  }
}
