/** The key allocation rule of the broker's in-process API store
    (`apiStore` in main.go): a registration takes the key
    `Format(|store| + 1)`, and nothing ever deletes from the store.
    Everything here assumes registrations run one after another. */
module Registry {
  import Decimal

  type Store = map<string, string>

  /** Path prefix under which registered APIs are published. */
  const ApiPrefix := "/api/"

  /** The keys "1", ..., "n". */
  function IssuedKeys(n: nat): set<string> {
    set i | 1 <= i <= n :: Decimal.Format(i)
  }

  /** The store invariant: a store of n entries has exactly the keys "1".."n". */
  predicate Issued(store: Store) {
    store.Keys == IssuedKeys(|store|)
  }

  /** The key the next registration takes. */
  function NextKey(store: Store): string {
    Decimal.Format(|store| + 1)
  }

  /** The public URL answered for a key. */
  function PublicUrl(key: string): string {
    ApiPrefix + key
  }

  /** A key has been issued among the first n exactly when it is a
      canonical decimal between 1 and n; so "", "01", "1/x" or "abc"
      are never keys. */
  lemma IssuedKeysMember(n: nat, key: string)
    ensures key in IssuedKeys(n) <==> Decimal.Canonical(key) && 1 <= Decimal.Parse(key) <= n
  {
    if key in IssuedKeys(n) {
      var i :| 1 <= i <= n && key == Decimal.Format(i);
      Decimal.FormatCanonical(i);
      Decimal.ParseFormat(i);
    }
    if Decimal.Canonical(key) && 1 <= Decimal.Parse(key) <= n {
      Decimal.FormatParse(key);
      assert key == Decimal.Format(Decimal.Parse(key));
    }
  }

  /** The key taken by the (n+1)-th registration was not issued before. */
  lemma NextKeyFresh(n: nat)
    ensures Decimal.Format(n + 1) !in IssuedKeys(n)
    ensures IssuedKeys(n + 1) == IssuedKeys(n) + {Decimal.Format(n + 1)}
  {
    if Decimal.Format(n + 1) in IssuedKeys(n) {
      var i :| 1 <= i <= n && Decimal.Format(n + 1) == Decimal.Format(i);
      Decimal.FormatInjective(n + 1, i);
    }
  }

  /** One registration on a store that keeps the invariant: the key is
      fresh, the store grows by exactly one entry, no existing mapping is
      overwritten, and the invariant still holds. */
  lemma RegisterStep(store: Store, url: string)
    requires Issued(store)
    ensures NextKey(store) !in store
    ensures var after := store[NextKey(store) := url];
      && |after| == |store| + 1
      && Issued(after)
      && after[NextKey(store)] == url
      && (forall k :: k in store ==> k in after && after[k] == store[k])
  {
    NextKeyFresh(|store|);
  }

  /** The store after registering `urls` in order on an empty store,
      each registration following main.go's allocation rule. */
  function Registered(urls: seq<string>): Store
  {
    if urls == [] then map[]
    else
      var before := Registered(urls[..|urls| - 1]);
      before[NextKey(before) := urls[|urls| - 1]]
  }

  /** After n registrations from an empty store the keys are exactly
      "1".."n", and key "i" maps to the i-th registered URL. */
  lemma {:induction false} RegisteredExactly(urls: seq<string>)
    ensures |Registered(urls)| == |urls|
    ensures Issued(Registered(urls))
    ensures forall i :: 1 <= i <= |urls| ==>
      Decimal.Format(i) in Registered(urls) && Registered(urls)[Decimal.Format(i)] == urls[i - 1]
  {
    if urls != [] {
      var prefix := urls[..|urls| - 1];
      RegisteredExactly(prefix);
      var before := Registered(prefix);
      RegisterStep(before, urls[|urls| - 1]);
      forall i | 1 <= i <= |urls|
        ensures Decimal.Format(i) in Registered(urls) && Registered(urls)[Decimal.Format(i)] == urls[i - 1]
      {
        if i < |urls| {
          assert Decimal.Format(i) in before;
          assert prefix[i - 1] == urls[i - 1];
        }
      }
    }
  }
}
