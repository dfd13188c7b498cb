/**
 * The `categorias` table and the category seed run at server start
 * (`initializeDatabase`): each fixed category is inserted unless a row with
 * its id already exists (INSERT ... ON CONFLICT DO NOTHING).
 */
module Categories {

  /** A row of `categorias`. */
  datatype Category = Category(id: int, nome: string)

  /** The table, keyed by its primary key `id`. */
  type Table = map<int, string>

  /** The fixed categories, in the order the seed inserts them. */
  const Defaults: seq<Category> := [
    Category(1, "Sobremesas"),
    Category(2, "Lanches"),
    Category(3, "Diets"),
    Category(4, "Vegetariano"),
    Category(5, "Bebidas")
  ]

  /** The ids of a list of categories. */
  function Ids(cs: seq<Category>): (r: set<int>)
    ensures forall i :: 0 <= i < |cs| ==> cs[i].id in r
  {
    set c | c in cs :: c.id
  }

  /** The ids the seed creates are exactly 1 to 5. */
  lemma DefaultIdsAre()
    ensures Ids(Defaults) == {1, 2, 3, 4, 5}
  {
  }

  /** One `INSERT ... ON CONFLICT DO NOTHING`. */
  function InsertIfAbsent(t: Table, c: Category): (r: Table)
    ensures r.Keys == t.Keys + {c.id}
    ensures forall k :: k in t ==> r[k] == t[k]
    ensures c.id !in t ==> r[c.id] == c.nome
  {
    if c.id in t then t else t[c.id := c.nome]
  }

  /** The inserts of `cs`, one after another. */
  function SeedAll(t: Table, cs: seq<Category>): (r: Table)
    ensures r.Keys == t.Keys + Ids(cs)
    ensures forall k :: k in t ==> r[k] == t[k]
    decreases |cs|
  {
    if cs == [] then t else SeedAll(InsertIfAbsent(t, cs[0]), cs[1..])
  }

  /** Seeding from position i is inserting the i-th category, then seeding the rest. */
  lemma SeedAllStep(t: Table, cs: seq<Category>, i: nat)
    requires i < |cs|
    ensures SeedAll(t, cs[i..]) == SeedAll(InsertIfAbsent(t, cs[i]), cs[i + 1..])
  {
    assert cs[i..][1..] == cs[i + 1..];
  }

  /** The table after the seed. */
  function Seeded(t: Table): (r: Table)
    ensures r.Keys == t.Keys + {1, 2, 3, 4, 5}
    ensures forall id :: id in t ==> r[id] == t[id]
  {
    DefaultIdsAre();
    SeedAll(t, Defaults)
  }

  /** The `categorias` table as the server sees it. */
  class CategoryTable {
    var rows: Table

    constructor (existing: Table)
      ensures rows == existing
    {
      rows := existing;
    }

    /** The seed loop of `initializeDatabase`. */
    method InitializeDatabase()
      modifies this
      ensures rows == Seeded(old(rows))
    {
      var categorias := Defaults;
      for i := 0 to |categorias|
        invariant SeedAll(rows, categorias[i..]) == SeedAll(old(rows), categorias)
      {
        var categoria := categorias[i];
        SeedAllStep(rows, categorias, i);
        if categoria.id !in rows {
          rows := rows[categoria.id := categoria.nome];
        }
      }
      assert categorias[|categorias|..] == [];
    }
  }

  // ---------------------------------------------------------------------------
  // Properties of the seed

  /** After the seed, categories 1 to 5 all exist, and no other id was added. */
  lemma SeededHasAllDefaults(t: Table)
    ensures Seeded(t).Keys == t.Keys + {1, 2, 3, 4, 5}
    ensures forall k :: 1 <= k <= 5 ==> k in Seeded(t)
  {
    DefaultIdsAre();
    forall k | 1 <= k <= 5 ensures k in Seeded(t) {
      assert k in {1, 2, 3, 4, 5};
    }
  }

  /** The seed never overwrites: an id already present keeps its old name. */
  lemma SeededKeepsExisting(t: Table, k: int)
    requires k in t
    ensures k in Seeded(t) && Seeded(t)[k] == t[k]
  {
  }

  /** An id that no inserted category carries is left as it was. */
  lemma SeedAllOtherIds(t: Table, cs: seq<Category>, k: int)
    requires k !in Ids(cs)
    ensures k in SeedAll(t, cs) <==> k in t
  {
  }

  /** Rows whose id lies outside 1..5 are untouched, and none are added. */
  lemma SeededOutsideUnchanged(t: Table, k: int)
    requires k < 1 || k > 5
    ensures k in Seeded(t) <==> k in t
    ensures k in t ==> Seeded(t)[k] == t[k]
  {
    DefaultIdsAre();
    SeedAllOtherIds(t, Defaults, k);
  }

  /** Inserting ids that are all present already changes nothing. */
  lemma {:induction false} SeedAllPresent(t: Table, cs: seq<Category>)
    requires Ids(cs) <= t.Keys
    ensures SeedAll(t, cs) == t
  {
    if cs != [] {
      assert cs[0].id in Ids(cs);
      assert Ids(cs[1..]) <= Ids(cs);
      SeedAllPresent(InsertIfAbsent(t, cs[0]), cs[1..]);
    }
  }

  /** Running the seed twice gives the same table as running it once. */
  lemma SeededIdempotent(t: Table)
    ensures Seeded(Seeded(t)) == Seeded(t)
  {
    SeedAllPresent(Seeded(t), Defaults);
  }

  /** An id first inserted by the i-th category gets that category's name. */
  lemma {:induction false} SeedAllFirstWins(t: Table, cs: seq<Category>, i: nat)
    requires i < |cs| && cs[i].id !in t
    requires forall j :: 0 <= j < i ==> cs[j].id != cs[i].id
    ensures SeedAll(t, cs)[cs[i].id] == cs[i].nome
    decreases i
  {
    var t' := InsertIfAbsent(t, cs[0]);
    if i == 0 {
      assert cs[0].id in t';
    } else {
      assert cs[1..][i - 1] == cs[i];
      SeedAllFirstWins(t', cs[1..], i - 1);
    }
  }

  /** A missing default category is created with its fixed name. */
  lemma SeededNames(t: Table, i: nat)
    requires i < |Defaults| && Defaults[i].id !in t
    ensures Seeded(t)[Defaults[i].id] == Defaults[i].nome
  {
    SeedAllFirstWins(t, Defaults, i);
  }
}
