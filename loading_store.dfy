/** The loading-flag store (frontend/src/stores/loadingStore.ts): one global flag and
    three maps of named flags, each setter replacing one map by a copy updated at one key. */
module LoadingStore {

  /** `Object.values(m).some(Boolean)`. */
  predicate AnyTrue(m: map<string, bool>) {
    true in m.Values
  }

  /** Setting a flag to true makes some flag true; setting it to false leaves only the
      other flags to decide. */
  lemma AnyTrueUpdate(m: map<string, bool>, k: string, b: bool)
    ensures AnyTrue(m[k := b]) <==> b || exists k' :: k' in m && k' != k && m[k']
  {
    var m' := m[k := b];
    if b {
      assert m'[k] in m'.Values;
    } else if exists k' :: k' in m && k' != k && m[k'] {
      var k' :| k' in m && k' != k && m[k'];
      assert m'[k'] in m'.Values;
    } else {
      assert true !in m'.Values by {
        forall v | v in m'.Values ensures v != true {
          var k' :| k' in m' && m'[k'] == v;
        }
      }
    }
  }

  class Loading {
    var globalLoading: bool
    var pageLoading: map<string, bool>
    var componentLoading: map<string, bool>
    var actionLoading: map<string, bool>

    constructor()
      ensures !globalLoading && pageLoading == map[] && componentLoading == map[] && actionLoading == map[]
      ensures !HasAnyLoading()
    {
      globalLoading := false;
      pageLoading, componentLoading, actionLoading := map[], map[], map[];
    }

    /** `hasAnyLoading`: true iff the global flag or some named flag is set. */
    function HasAnyLoading(): (r: bool)
      reads this
      ensures r <==> || globalLoading
                     || (exists k :: k in pageLoading && pageLoading[k])
                     || (exists k :: k in componentLoading && componentLoading[k])
                     || (exists k :: k in actionLoading && actionLoading[k])
    {
      globalLoading || AnyTrue(pageLoading) || AnyTrue(componentLoading) || AnyTrue(actionLoading)
    }

    method SetGlobalLoading(loading: bool)
      modifies this
      ensures globalLoading == loading
      ensures pageLoading == old(pageLoading) && componentLoading == old(componentLoading)
      ensures actionLoading == old(actionLoading)
    {
      globalLoading := loading;
    }

    method SetPageLoading(page: string, loading: bool)
      modifies this
      ensures pageLoading == old(pageLoading)[page := loading]
      ensures globalLoading == old(globalLoading) && componentLoading == old(componentLoading)
      ensures actionLoading == old(actionLoading)
      ensures loading ==> HasAnyLoading()
    {
      pageLoading := pageLoading[page := loading];
      if loading { assert pageLoading[page]; }
    }

    method SetComponentLoading(component: string, loading: bool)
      modifies this
      ensures componentLoading == old(componentLoading)[component := loading]
      ensures globalLoading == old(globalLoading) && pageLoading == old(pageLoading)
      ensures actionLoading == old(actionLoading)
      ensures loading ==> HasAnyLoading()
    {
      componentLoading := componentLoading[component := loading];
      if loading { assert componentLoading[component]; }
    }

    method SetActionLoading(action: string, loading: bool)
      modifies this
      ensures actionLoading == old(actionLoading)[action := loading]
      ensures globalLoading == old(globalLoading) && pageLoading == old(pageLoading)
      ensures componentLoading == old(componentLoading)
      ensures loading ==> HasAnyLoading()
    {
      actionLoading := actionLoading[action := loading];
      if loading { assert actionLoading[action]; }
    }

    /** `clearAllLoading`: back to the initial state, where nothing is loading. */
    method ClearAllLoading()
      modifies this
      ensures !globalLoading && pageLoading == map[] && componentLoading == map[] && actionLoading == map[]
      ensures !HasAnyLoading()
    {
      globalLoading := false;
      pageLoading, componentLoading, actionLoading := map[], map[], map[];
    }
  }
}
