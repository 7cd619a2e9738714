/**
 Outside worlds that exist, for the inputs at which a promise fails: ids are tallies, and every
 collection is walked in some order.
 */
module ConcreteWorlds {
  import opened CrmTables

  ghost function EnumerationOf(s: set<string>): (q: seq<string>)
    ensures Enumerates(q, s)
  {
    if s == {} then []
    else
      var x :| x in s;
      var rest := EnumerationOf(s - {x});
      assert forall y :: y in [x] + rest <==> y == x || y in rest;
      [x] + rest
  }

  function Tally(n: nat): Id {
    seq(n + 1, _ => 'u')
  }

  /** Plain in every respect but the calls that fail. */
  ghost function PlainWorld(fails: nat -> bool): World {
    World(fails, false, (n: nat) => Tally(n), (n: nat, s: set<string>) => EnumerationOf(s),
          _ => [], _ => "", _ => Scan("", "", "", "", ""))
  }

  lemma PlainWorldIsValid(fails: nat -> bool)
    ensures ValidWorld(PlainWorld(fails))
  {
    var w := PlainWorld(fails);
    forall i: nat
      ensures |w.uuid(i)| == i + 1
    {
    }
  }

  /** Tables without a name that is a tally. */
  lemma NamedAreFresh(fails: nat -> bool, t: Tables, names: set<Id>)
    requires forall name :: name in names ==> name != "" && name[0] != 'u'
    requires t.people.Keys + t.prompts.Keys <= names
    requires t.activities == map[] && t.companies == map[] && t.messages == map[] && t.links == {}
    requires forall a :: a in t.addresses ==> a.0 in names
    ensures FreshIds(PlainWorld(fails), t, 0)
  {
    forall i: nat
      ensures PlainWorld(fails).uuid(i) !in names
    {
      assert Tally(i)[0] == 'u';
    }
  }
}
