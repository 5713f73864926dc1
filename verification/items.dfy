/**
 * The extracted record (src/spider/util/items.go): a string-to-string map
 * with a defaulted lookup.
 */
module Util {

  /** One extracted record; `items` is the Go map held by the struct. */
  datatype Items = Items(items: map<string, string>)

  /** A freshly constructed record holds no key at all. */
  function NewItems(): (r: Items)
    ensures forall k, d :: Get(r, k, d) == d
    ensures GetAll(r).Keys == {}
  {
    Items(map[])
  }

  /** Stores `value` under `key`, overwriting any earlier value. */
  function Set(it: Items, key: string, value: string): (r: Items)
    ensures forall d :: Get(r, key, d) == value
    ensures forall k, d :: k != key ==> Get(r, k, d) == Get(it, k, d)
    ensures GetAll(r).Keys == GetAll(it).Keys + {key}
  {
    Items(it.items[key := value])
  }

  /** The value stored under `key`, or `defaultVal` when the key was never set. */
  function Get(it: Items, key: string, defaultVal: string): (r: string)
    ensures key in it.items ==> r == it.items[key]
    ensures key !in it.items ==> r == defaultVal
  {
    if key in it.items then it.items[key] else defaultVal
  }

  /** The whole map; it agrees with `Get` on every key, present or absent. */
  function GetAll(it: Items): (m: map<string, string>)
    ensures forall k, d :: k in m ==> Get(it, k, d) == m[k]
    ensures forall k, d :: k !in m ==> Get(it, k, d) == d
  {
    it.items
  }

  /** Applies the writes `(key, value)` to `it` one after the other, first to last. */
  function SetAll(it: Items, writes: seq<(string, string)>): Items
  {
    if writes == [] then it
    else
      var last := writes[|writes| - 1];
      Set(SetAll(it, writes[..|writes| - 1]), last.0, last.1)
  }

  /** Reference reading: the value of the last write to `key`, else `d`. */
  function LastWrite(writes: seq<(string, string)>, key: string, d: string): string
  {
    if writes == [] then d
    else if writes[|writes| - 1].0 == key then writes[|writes| - 1].1
    else LastWrite(writes[..|writes| - 1], key, d)
  }

  /** The keys some write in `writes` names. */
  function WrittenKeys(writes: seq<(string, string)>): set<string>
  {
    set i | 0 <= i < |writes| :: writes[i].0
  }

  /**
   * Last write wins: after any sequence of `Set` calls, `Get` returns the value
   * of the last write to the key, and what `Get` returned before when there was none.
   */
  lemma {:induction false} ReplayGet(it: Items, writes: seq<(string, string)>, key: string, d: string)
    ensures Get(SetAll(it, writes), key, d) == LastWrite(writes, key, Get(it, key, d))
    decreases |writes|
  {
    if writes != [] {
      ReplayGet(it, writes[..|writes| - 1], key, d);
    }
  }

  /** Starting from `NewItems`, the keys of `GetAll` are exactly the keys ever `Set`. */
  lemma {:induction false} ReplayKeys(writes: seq<(string, string)>)
    ensures GetAll(SetAll(NewItems(), writes)).Keys == WrittenKeys(writes)
    decreases |writes|
  {
    if writes != [] {
      var init := writes[..|writes| - 1];
      ReplayKeys(init);
      assert WrittenKeys(writes) == WrittenKeys(init) + {writes[|writes| - 1].0} by {
        forall k | k in WrittenKeys(writes)
          ensures k in WrittenKeys(init) + {writes[|writes| - 1].0}
        {
          var i :| 0 <= i < |writes| && writes[i].0 == k;
          if i < |writes| - 1 {
            assert init[i] == writes[i];
          }
        }
        forall k | k in WrittenKeys(init)
          ensures k in WrittenKeys(writes)
        {
          var i :| 0 <= i < |init| && init[i].0 == k;
          assert writes[i] == init[i];
        }
      }
    }
  }

  /** Two writes to one key: the second overwrites the first, whatever the first was. */
  lemma OverwriteWins(it: Items, key: string, v1: string, v2: string)
    ensures Set(Set(it, key, v1), key, v2) == Set(it, key, v2)
  {
  }
}
