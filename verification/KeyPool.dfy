/**
 Key selection for one request: the fixed-key and rotating-pool key providers.

 The key pool filter and the key selector are hooks of the embedding program. They are
 modelled as arbitrary functions of how often they have been called; the filter may fail
 or keep a sublist of its input, the selector may fail or pick a member of its input.
 */
module KeyPool {

  type KeyId = string

  datatype Key = Key(id: KeyId, name: string)

  /** What the hooks do on their n-th call. */
  datatype Hooks = Hooks(filter: (nat, seq<Key>) -> FilterResult, select: (nat, seq<Key>) -> SelectResult)

  datatype FilterResult = FilterFailed | Keep(keys: seq<Key>)
  datatype SelectResult = SelectFailed | Selected(key: Key)

  datatype KeyProvider = Keyless | FixedKey(key: Key) | RotatingPool(pool: seq<Key>)

  datatype Choice = Picked(key: Key, reset: bool) | AllKeysDead | AllKeysFiltered | SelectorError(reset: bool)

  ghost predicate HooksOk(h: Hooks) {
    && (forall n, ks, k :: h.filter(n, ks).Keep? && k in h.filter(n, ks).keys ==> k in ks)
    && (forall n, ks :: ks != [] && h.select(n, ks).Selected? ==> h.select(n, ks).key in ks)
  }

  /** The keys of `pool` whose ID is not in `out`, in order. */
  function Without(pool: seq<Key>, out: set<KeyId>): (r: seq<Key>)
    ensures forall k :: k in r <==> k in pool && k.id !in out
  {
    if pool == [] then []
    else
      var rest := Without(pool[..|pool| - 1], out);
      var last := pool[|pool| - 1];
      if last.id in out then rest else rest + [last]
  }

  /** Filter hook with its failure policy: on error the keys go through unfiltered. */
  function Filtered(h: Hooks, n: nat, ks: seq<Key>): (r: seq<Key>)
    requires HooksOk(h)
    ensures forall k :: k in r ==> k in ks
  {
    match h.filter(n, ks)
    case FilterFailed => ks
    case Keep(keys) => keys
  }

  /** What is offered of `ks`: the filter's answer, or `ks` itself when the filter fails. */
  ghost predicate Offers(h: Hooks, n: nat, ks: seq<Key>, offered: seq<Key>) {
    h.filter(n, ks) == Keep(offered) || (h.filter(n, ks).FilterFailed? && offered == ks)
  }

  /**
   The choice is the selector's answer on the offered list: what the filter leaves of the live
   unused keys, or, after a reset because that is empty, of all live keys.
   */
  ghost predicate SelectedFrom(h: Hooks, n: nat, pool: seq<Key>, used: set<KeyId>, dead: set<KeyId>, choice: Choice) {
    exists first, second {:trigger Offers(h, 2 * n, Without(pool, dead + used), first), Offers(h, 2 * n + 1, Without(pool, dead), second)} ::
      && Offers(h, 2 * n, Without(pool, dead + used), first)
      && Offers(h, 2 * n + 1, Without(pool, dead), second)
      && ChosenFrom(h, n, first, second, Without(pool, dead), choice)
  }

  ghost predicate ChosenFrom(h: Hooks, n: nat, first: seq<Key>, second: seq<Key>, live: seq<Key>, choice: Choice) {
    var offered := if first == [] then second else first;
    && (choice.Picked? ==> offered != [] && h.select(n, offered) == Selected(choice.key) && choice.reset == (first == []))
    && (choice.SelectorError? <==> offered != [] && h.select(n, offered).SelectFailed?)
    && (choice.SelectorError? ==> choice.reset == (first == []))
    && (choice.AllKeysFiltered? <==> offered == [] && live != [])
    && (choice.AllKeysDead? <==> offered == [] && live == [])
  }

  /** The loop that leaves excluded keys out of the pool. */
  method CollectAvailable(pool: seq<Key>, out: set<KeyId>) returns (available: seq<Key>)
    ensures available == Without(pool, out)
  {
    available := [];
    for i := 0 to |pool|
      invariant available == Without(pool[..i], out)
    {
      assert pool[..i + 1][..i] == pool[..i];
      if pool[i].id !in out {
        available := available + [pool[i]];
      }
    }
    assert pool[..|pool|] == pool;
  }

  /** The fixed-key provider. */
  method SelectFixed(h: Hooks, n: nat, key: Key, dead: set<KeyId>) returns (choice: Choice)
    ensures choice.AllKeysDead? <==> key.id in dead
    ensures choice.AllKeysFiltered? <==> key.id !in dead && h.filter(2 * n, [key]) == Keep([])
    ensures !choice.SelectorError? && (choice.Picked? ==> choice == Picked(key, false))
  {
    if key.id in dead {
      return AllKeysDead;
    }
    if h.filter(2 * n, [key]) == Keep([]) {
      return AllKeysFiltered;
    }
    choice := Picked(key, false);
  }

  /** The rotating pool. A reset, when nothing unused is left, empties the set of used keys. */
  method SelectRotating(h: Hooks, n: nat, pool: seq<Key>, used: set<KeyId>, dead: set<KeyId>)
    returns (choice: Choice, used': set<KeyId>)
    requires HooksOk(h)
    ensures used' == if (choice.Picked? || choice.SelectorError?) && choice.reset then {} else used
    ensures SelectedFrom(h, n, pool, used, dead, choice)
  {
    used' := used;
    var unused := CollectAvailable(pool, dead + used);
    var available := Filtered(h, 2 * n, unused);
    ghost var first, second := available, Filtered(h, 2 * n + 1, Without(pool, dead));
    assert Offers(h, 2 * n, unused, first) && Offers(h, 2 * n + 1, Without(pool, dead), second);
    var reset := false;
    if available == [] {
      var live := CollectAvailable(pool, dead);
      available := Filtered(h, 2 * n + 1, live);
      if available == [] {
        choice := if live != [] then AllKeysFiltered else AllKeysDead;
        assert ChosenFrom(h, n, first, second, live, choice);
        return;
      }
      reset := true;
      used' := {};
    }
    match h.select(n, available)
    case SelectFailed => choice := SelectorError(reset);
    case Selected(key) => choice := Picked(key, reset);
    assert ChosenFrom(h, n, first, second, Without(pool, dead), choice);
  }

  /** What the offered lists contain. */
  lemma OffersKeep(h: Hooks, n: nat, ks: seq<Key>, offered: seq<Key>)
    requires HooksOk(h) && Offers(h, n, ks, offered)
    ensures forall k :: k in offered ==> k in ks
    ensures forall veto :: ConstantVeto(h, veto) ==> offered == Without(ks, veto)
  {
  }

  lemma NoneOffered(first: seq<Key>, second: seq<Key>, unused: seq<Key>, live: seq<Key>)
    requires forall k :: k in first ==> k in unused
    requires forall k :: k in second ==> k in live
    requires forall k :: k in unused ==> k in live
    ensures live == [] ==> first == [] && second == []
  {
    if first != [] { assert first[0] in first; }
    if second != [] { assert second[0] in second; }
  }

  /** A choice from the offered lists: a picked key is live and, without a reset, unused. */
  lemma SelectedIsLive(h: Hooks, n: nat, pool: seq<Key>, used: set<KeyId>, dead: set<KeyId>, choice: Choice)
    requires HooksOk(h) && SelectedFrom(h, n, pool, used, dead, choice)
    ensures choice.Picked? ==> choice.key in pool && choice.key.id !in dead && (!choice.reset ==> choice.key.id !in used)
    ensures choice.AllKeysDead? <==> Without(pool, dead) == []
    ensures choice.AllKeysFiltered? || choice.SelectorError? ==> Without(pool, dead) != []
  {
    var unused, live := Without(pool, dead + used), Without(pool, dead);
    var first, second :| Offers(h, 2 * n, unused, first) && Offers(h, 2 * n + 1, live, second) && ChosenFrom(h, n, first, second, live, choice);
    OffersKeep(h, 2 * n, unused, first);
    OffersKeep(h, 2 * n + 1, live, second);
    ChosenIsLive(h, n, pool, used, dead, first, second, choice);
  }

  lemma ChosenIsLive(h: Hooks, n: nat, pool: seq<Key>, used: set<KeyId>, dead: set<KeyId>, first: seq<Key>, second: seq<Key>, choice: Choice)
    requires forall ks :: ks != [] && h.select(n, ks).Selected? ==> h.select(n, ks).key in ks
    requires forall k :: k in first ==> k in Without(pool, dead + used)
    requires forall k :: k in second ==> k in Without(pool, dead)
    requires ChosenFrom(h, n, first, second, Without(pool, dead), choice)
    ensures choice.Picked? ==> choice.key in pool && choice.key.id !in dead && (!choice.reset ==> choice.key.id !in used)
    ensures choice.AllKeysDead? <==> Without(pool, dead) == []
    ensures choice.AllKeysFiltered? || choice.SelectorError? ==> Without(pool, dead) != []
  {
    NoneOffered(first, second, Without(pool, dead + used), Without(pool, dead));
    if choice.Picked? {
      assert choice.key in if first == [] then second else first;
    }
  }

  /** With a constant veto, a choice from the offered lists is fair. */
  lemma SelectedIsFair(h: Hooks, n: nat, pool: seq<Key>, used: set<KeyId>, dead: set<KeyId>, choice: Choice, veto: set<KeyId>)
    requires HooksOk(h) && SelectedFrom(h, n, pool, used, dead, choice) && ConstantVeto(h, veto)
    ensures PicksFairly(pool, used, dead, veto, choice)
  {
    var unused, live := Without(pool, dead + used), Without(pool, dead);
    var first, second :| Offers(h, 2 * n, unused, first) && Offers(h, 2 * n + 1, live, second) && ChosenFrom(h, n, first, second, live, choice);
    OffersKeep(h, 2 * n, unused, first);
    OffersKeep(h, 2 * n + 1, live, second);
    ChosenIsFair(h, n, pool, used, dead, veto, first, second, choice);
  }

  lemma ChosenIsFair(h: Hooks, n: nat, pool: seq<Key>, used: set<KeyId>, dead: set<KeyId>, veto: set<KeyId>,
                     first: seq<Key>, second: seq<Key>, choice: Choice)
    requires forall ks :: ks != [] && h.select(n, ks).Selected? ==> h.select(n, ks).key in ks
    requires first == Without(Without(pool, dead + used), veto) && second == Without(Without(pool, dead), veto)
    requires ChosenFrom(h, n, first, second, Without(pool, dead), choice)
    ensures PicksFairly(pool, used, dead, veto, choice)
  {
    NothingLeft(first, Without(pool, dead + used), veto, pool, dead + used);
    NothingLeft(second, Without(pool, dead), veto, pool, dead);
    NothingExcluded(pool, dead);
    if choice.Picked? {
      assert choice.key in if first == [] then second else first;
    }
    NoneOffered(first, second, Without(pool, dead + used), Without(pool, dead));
  }

  lemma NothingExcluded(pool: seq<Key>, dead: set<KeyId>)
    ensures Without(pool, dead) == [] <==> forall k :: k in pool ==> k.id in dead
  {
    if Without(pool, dead) != [] { assert Without(pool, dead)[0] in Without(pool, dead); }
    forall k | k in pool && Without(pool, dead) == [] ensures k.id in dead { assert k !in Without(pool, dead); }
  }

  /** Under a veto, nothing is offered exactly when the veto covers every key left by the exclusions. */
  lemma NothingLeft(offered: seq<Key>, ks: seq<Key>, veto: set<KeyId>, pool: seq<Key>, out: set<KeyId>)
    requires ks == Without(pool, out) && offered == Without(ks, veto)
    ensures offered == [] <==> forall k :: k in pool && k.id !in out ==> k.id in veto
    ensures forall k :: k in offered ==> k.id !in veto
  {
    if offered != [] { assert offered[0] in offered; }
    forall k | k in pool && k.id !in out && offered == [] ensures k.id in veto { assert k in ks && k !in offered; }
  }

  /** One call of the key provider. `n` numbers the call; the rotating pool may run the filter twice. */
  method SelectKey(h: Hooks, n: nat, kp: KeyProvider, used: set<KeyId>, dead: set<KeyId>)
    returns (choice: Choice, used': set<KeyId>)
    requires HooksOk(h) && !kp.Keyless?
    ensures used' == if (choice.Picked? || choice.SelectorError?) && choice.reset then {} else used
    ensures choice.Picked? ==> choice.key.id !in dead && choice.key in Members(kp)
    ensures choice.Picked? && kp.RotatingPool? && !choice.reset ==> choice.key.id !in used
    ensures kp.FixedKey? ==> !choice.SelectorError? && (choice.Picked? ==> !choice.reset)
    ensures choice.AllKeysDead? <==> Without(Members(kp), dead) == []
    ensures kp.RotatingPool? ==> SelectedFrom(h, n, kp.pool, used, dead, choice)
    ensures kp.FixedKey? ==> (choice.AllKeysFiltered? <==> kp.key.id !in dead && h.filter(2 * n, [kp.key]) == Keep([]))
    ensures kp.RotatingPool? ==> forall veto :: ConstantVeto(h, veto) ==> PicksFairly(kp.pool, used, dead, veto, choice)
    ensures kp.FixedKey? ==> forall veto :: ConstantVeto(h, veto) ==> FixedFairly(kp.key, dead, veto, choice)
  {
    used' := used;
    if kp.FixedKey? {
      choice := SelectFixed(h, n, kp.key, dead);
      NothingExcluded([kp.key], dead);
      forall veto | ConstantVeto(h, veto) ensures FixedFairly(kp.key, dead, veto, choice) {
        assert h.filter(2 * n, [kp.key]) == Keep(Without([kp.key], veto));
        NothingExcluded([kp.key], veto);
      }
    } else {
      choice, used' := SelectRotating(h, n, kp.pool, used, dead);
      SelectedIsLive(h, n, kp.pool, used, dead, choice);
      forall veto | ConstantVeto(h, veto) ensures PicksFairly(kp.pool, used, dead, veto, choice) {
        SelectedIsFair(h, n, kp.pool, used, dead, choice, veto);
      }
    }
  }

  function Members(kp: KeyProvider): seq<Key> {
    match kp
    case Keyless => []
    case FixedKey(key) => [key]
    case RotatingPool(pool) => pool
  }

  /** The filter drops exactly the keys whose ID is in `veto`, on every call. */
  ghost predicate ConstantVeto(h: Hooks, veto: set<KeyId>) {
    forall n, ks :: h.filter(n, ks) == Keep(Without(ks, veto))
  }

  /**
   With a constant veto: a used key is picked only by a reset, a reset needs every live
   unvetoed key to be used, all-dead means every pool key is dead, and all-filtered that
   some key is live but every live key is vetoed.
   */
  ghost predicate PicksFairly(pool: seq<Key>, used: set<KeyId>, dead: set<KeyId>, veto: set<KeyId>, choice: Choice) {
    && (choice.Picked? ==> choice.key.id !in veto)
    && (choice.Picked? && choice.reset ==> forall k :: k in pool && k.id !in dead && k.id !in veto ==> k.id in used)
    && (choice.AllKeysDead? <==> forall k :: k in pool ==> k.id in dead)
    && (choice.AllKeysFiltered? <==>
          && (exists k :: k in pool && k.id !in dead)
          && (forall k :: k in pool && k.id !in dead ==> k.id in veto))
  }

  ghost predicate FixedFairly(key: Key, dead: set<KeyId>, veto: set<KeyId>, choice: Choice) {
    && (choice.AllKeysDead? <==> key.id in dead)
    && (choice.AllKeysFiltered? <==> key.id !in dead && key.id in veto)
  }
}
