/**
 * The `receitas` table and its three routes: POST / (validate, coerce,
 * default, insert), GET /:id and GET / (every row, newest first), both
 * LEFT JOINed with `categorias` for the category name.
 */
module Recipes {
  import opened Common
  import opened Js
  import Categories

  /** The body fields of POST /; a field the client did not send is Undefined. */
  datatype CreateBody = CreateBody(
    titulo: JsValue,
    descricao: JsValue,
    ingredientes: JsValue,
    modoPreparo: JsValue,
    tempoPreparo: JsValue,
    categoriaId: JsValue,
    dificuldade: JsValue,
    usuarioId: JsValue,
    avaliacao: JsValue)

  /** The uploaded image, when the request carried one. */
  datatype Upload = Upload(filename: string)

  /** The values the INSERT binds to its ten parameters, and the forced `favorita`. */
  datatype Fields = Fields(
    titulo: JsValue,
    descricao: JsValue,
    ingredientes: JsValue,
    modoPreparo: JsValue,
    imagem: Option<string>,
    tempoPreparo: JsValue,
    categoriaId: int,
    dificuldade: JsValue,
    usuarioId: JsValue,
    avaliacao: JsValue,
    favorita: bool)

  /** A stored row: the server-assigned id, the inserted values and the creation time. */
  datatype Recipe = Recipe(id: nat, fields: Fields, dataCriacao: int)

  /** A row of the GET routes: the recipe and the joined category name (null if none). */
  datatype JoinedRow = JoinedRow(recipe: Recipe, categoriaNome: Option<string>)

  /** What POST / answers. */
  datatype CreateOutcome = Created(row: Recipe) | Rejected(error: string)

  /** What GET /:id answers. */
  datatype Lookup = Found(row: JoinedRow) | NotFound

  const MissingFieldsMessage := "Título, categoria e dificuldade são obrigatórios"
  const InvalidCategoryMessage := "Categoria inválida. Use ID entre 1 e 5"
  const DuplicateTitleMessage := "Uma receita com este título já existe"
  const NotFoundMessage := "Receita não encontrada"

  /** The HTTP status of a POST / answer. */
  function CreateStatus(out: CreateOutcome): (code: int)
    ensures code == 201 <==> out.Created?
    ensures code == 400 <==> out.Rejected?
  {
    match out
    case Created(_) => 201
    case Rejected(_) => 400
  }

  /** The HTTP status of a GET /:id answer. */
  function LookupStatus(r: Lookup): (code: int)
    ensures code == 200 <==> r.Found?
    ensures code == 404 <==> r.NotFound?
  {
    match r
    case Found(_) => 200
    case NotFound => 404
  }

  /** The category ids the range check lets through. */
  predicate AcceptedCategory(catId: int) {
    1 <= catId <= 5
  }

  /** `parseInt(categoria_id)` is a Number in 1..5 (NaN fails every comparison). */
  predicate CategoryAccepted(v: JsValue) {
    ParseIntValue(v).Some? && AcceptedCategory(ParseIntValue(v).value)
  }

  /** The required fields are present in the JavaScript sense. */
  predicate RequiredPresent(body: CreateBody) {
    Truthy(body.titulo) && Truthy(body.categoriaId) && Truthy(body.dificuldade)
  }

  /**
   * The pure part of POST /: the presence check, the parseInt coercion and
   * range check of the category, and the `||` defaults.
   */
  function Prepare(body: CreateBody, file: Option<Upload>): (r: Result<Fields, string>)
    ensures r == Failure(MissingFieldsMessage) <==> !RequiredPresent(body)
    ensures r == Failure(InvalidCategoryMessage)
            <==> RequiredPresent(body) && !CategoryAccepted(body.categoriaId)
    ensures r.Success? <==> RequiredPresent(body) && CategoryAccepted(body.categoriaId)
    ensures r.Success? ==>
      && AcceptedCategory(r.value.categoriaId)
      && Some(r.value.categoriaId) == ParseIntValue(body.categoriaId)
      && !r.value.favorita
      && r.value.titulo == body.titulo && Truthy(r.value.titulo)
      && r.value.dificuldade == body.dificuldade
    // the `|| null` fields: kept when truthy, stored as null otherwise
    ensures r.Success? ==>
      && r.value.descricao == (if Truthy(body.descricao) then body.descricao else Null)
      && r.value.ingredientes == (if Truthy(body.ingredientes) then body.ingredientes else Null)
      && r.value.modoPreparo == (if Truthy(body.modoPreparo) then body.modoPreparo else Null)
    // the numeric defaults
    ensures r.Success? ==>
      && r.value.tempoPreparo == (if Truthy(body.tempoPreparo) then body.tempoPreparo else Num(0))
      && r.value.usuarioId == (if Truthy(body.usuarioId) then body.usuarioId else Num(1))
      && r.value.avaliacao == (if Truthy(body.avaliacao) then body.avaliacao else Num(0))
    ensures r.Success? ==> r.value.imagem == (if file.Some? then Some(file.value.filename) else None)
  {
    var imagem := if file.Some? then Some(file.value.filename) else None;
    if !Truthy(body.titulo) || !Truthy(body.categoriaId) || !Truthy(body.dificuldade) then
      Failure(MissingFieldsMessage)
    else
      var catId := ParseIntValue(body.categoriaId);
      if catId.None? || catId.value < 1 || catId.value > 5 then
        Failure(InvalidCategoryMessage)
      else
        Success(Fields(
          body.titulo,
          Or(body.descricao, Null),
          Or(body.ingredientes, Null),
          Or(body.modoPreparo, Null),
          imagem,
          Or(body.tempoPreparo, Num(0)),
          catId.value,
          body.dificuldade,
          Or(body.usuarioId, Num(1)),
          Or(body.avaliacao, Num(0)),
          false))
  }

  /** Some row already has this title (the unique constraint on `titulo`). */
  predicate TitleTaken(rows: seq<Recipe>, titulo: JsValue) {
    exists i :: 0 <= i < |rows| && rows[i].fields.titulo == titulo
  }

  /** How many rows carry this title. */
  function CountTitle(rows: seq<Recipe>, titulo: JsValue): (n: nat)
    ensures n <= |rows|
  {
    if rows == [] then 0
    else CountTitle(rows[..|rows| - 1], titulo) + (if rows[|rows| - 1].fields.titulo == titulo then 1 else 0)
  }

  /** No two rows share an id. */
  predicate UniqueIds(rows: seq<Recipe>) {
    forall i, j :: 0 <= i < j < |rows| ==> rows[i].id != rows[j].id
  }

  /** No two rows share a title. */
  predicate UniqueTitles(rows: seq<Recipe>) {
    forall i, j :: 0 <= i < j < |rows| ==> rows[i].fields.titulo != rows[j].fields.titulo
  }

  /** The LEFT JOIN with `categorias`: the category's name, or null when it is missing. */
  function Join(r: Recipe, categorias: Categories.Table): (j: JoinedRow)
    ensures j.recipe == r
    ensures j.categoriaNome.Some? <==> r.fields.categoriaId in categorias
    ensures j.categoriaNome.Some? ==> j.categoriaNome.value == categorias[r.fields.categoriaId]
  {
    JoinedRow(r, if r.fields.categoriaId in categorias then Some(categorias[r.fields.categoriaId]) else None)
  }

  // ---------------------------------------------------------------------------
  // ORDER BY data_criacao DESC

  predicate SortedNewestFirst(s: seq<Recipe>) {
    forall i, j :: 0 <= i < j < |s| ==> s[i].dataCriacao >= s[j].dataCriacao
  }

  /** The head of a sorted list is no older than anything built from its tail and an older row. */
  lemma HeadIsNewest(s: seq<Recipe>, x: Recipe, t: seq<Recipe>)
    requires SortedNewestFirst(s) && s != []
    requires x.dataCriacao <= s[0].dataCriacao
    requires multiset(t) == multiset(s[1..]) + multiset{x}
    ensures forall i :: 0 <= i < |t| ==> s[0].dataCriacao >= t[i].dataCriacao
  {
    forall i | 0 <= i < |t| ensures s[0].dataCriacao >= t[i].dataCriacao {
      assert t[i] in multiset(t);
      if t[i] != x {
        assert t[i] in multiset(s[1..]);
        var k :| 0 <= k < |s[1..]| && s[1..][k] == t[i];
        assert s[k + 1] == t[i];
      }
    }
  }

  function InsertByDate(x: Recipe, s: seq<Recipe>): (r: seq<Recipe>)
    requires SortedNewestFirst(s)
    ensures SortedNewestFirst(r)
    ensures multiset(r) == multiset(s) + multiset{x}
    ensures |r| == |s| + 1
  {
    if s == [] || x.dataCriacao >= s[0].dataCriacao then
      [x] + s
    else
      var t := InsertByDate(x, s[1..]);
      assert s == [s[0]] + s[1..];
      HeadIsNewest(s, x, t);
      [s[0]] + t
  }

  /** The rows in ORDER BY data_criacao DESC order (ties in any order). */
  function SortNewestFirst(s: seq<Recipe>): (r: seq<Recipe>)
    ensures SortedNewestFirst(r)
    ensures multiset(r) == multiset(s)
    ensures |r| == |s|
  {
    if s == [] then []
    else
      assert s == [s[0]] + s[1..];
      InsertByDate(s[0], SortNewestFirst(s[1..]))
  }

  function JoinAll(s: seq<Recipe>, categorias: Categories.Table): (r: seq<JoinedRow>)
    ensures |r| == |s|
    ensures forall i :: 0 <= i < |s| ==> r[i] == Join(s[i], categorias)
  {
    if s == [] then [] else [Join(s[0], categorias)] + JoinAll(s[1..], categorias)
  }

  /** The recipes of a list of joined rows. */
  function RecipesOf(js: seq<JoinedRow>): (r: seq<Recipe>)
    ensures |r| == |js|
    ensures forall i :: 0 <= i < |js| ==> r[i] == js[i].recipe
  {
    if js == [] then [] else [js[0].recipe] + RecipesOf(js[1..])
  }

  /** Unique ids below the sequence's next value, unique titles, valid categories. */
  ghost predicate TableValid(rows: seq<Recipe>, nextId: nat) {
    && UniqueIds(rows)
    && UniqueTitles(rows)
    && (forall i :: 0 <= i < |rows| ==> rows[i].id < nextId)
    && (forall i :: 0 <= i < |rows| ==> AcceptedCategory(rows[i].fields.categoriaId))
  }

  /** The INSERT keeps the constraints when the title is free and the category accepted. */
  lemma InsertKeepsValid(rows: seq<Recipe>, nextId: nat, fields: Fields, now: int)
    requires TableValid(rows, nextId)
    requires !TitleTaken(rows, fields.titulo) && AcceptedCategory(fields.categoriaId)
    ensures TableValid(rows + [Recipe(nextId, fields, now)], nextId + 1)
  {
  }

  // ---------------------------------------------------------------------------
  // The table

  /** The `receitas` table; `nextId` is the next value of its id sequence. */
  class RecipeStore {
    var rows: seq<Recipe>
    var nextId: nat

    /** The constraints the table keeps. */
    ghost predicate Valid()
      reads this
    {
      TableValid(rows, nextId)
    }

    constructor ()
      ensures Valid() && rows == [] && nextId == 1
    {
      rows := [];
      nextId := 1;
    }

    /** GET /:id. */
    function GetById(id: int, categorias: Categories.Table): (r: Lookup)
      reads this
      requires Valid()
      ensures r.NotFound? <==> forall i :: 0 <= i < |rows| ==> rows[i].id != id
      ensures r.Found? ==> r.row.recipe in rows && r.row.recipe.id == id
      ensures r.Found? ==> r.row == Join(r.row.recipe, categorias)
    {
      if exists i :: 0 <= i < |rows| && rows[i].id == id then
        var i :| 0 <= i < |rows| && rows[i].id == id;
        Found(Join(rows[i], categorias))
      else
        NotFound
    }

    /** GET /: every row with its category name, newest first. */
    function ListAll(categorias: Categories.Table): (r: seq<JoinedRow>)
      reads this
      ensures multiset(RecipesOf(r)) == multiset(rows)
      ensures forall i, j :: 0 <= i < j < |r| ==> r[i].recipe.dataCriacao >= r[j].recipe.dataCriacao
      ensures forall i :: 0 <= i < |r| ==> r[i] == Join(r[i].recipe, categorias)
    {
      var sorted := SortNewestFirst(rows);
      var r := JoinAll(sorted, categorias);
      assert RecipesOf(r) == sorted;
      r
    }

    /**
     * POST /: the checks of Prepare, then the INSERT, which the unique
     * constraint on `titulo` turns into the duplicate-title answer.  The
     * insert with its constraint check is one atomic step.
     */
    method Create(body: CreateBody, file: Option<Upload>, now: int) returns (out: CreateOutcome)
      requires Valid()
      modifies this
      ensures Valid()
      ensures Prepare(body, file).Failure? ==>
        out == Rejected(Prepare(body, file).error) && rows == old(rows) && nextId == old(nextId)
      ensures Prepare(body, file).Success? && TitleTaken(old(rows), body.titulo) ==>
        out == Rejected(DuplicateTitleMessage) && rows == old(rows) && nextId == old(nextId)
      ensures Prepare(body, file).Success? && !TitleTaken(old(rows), body.titulo) ==>
        && out == Created(Recipe(old(nextId), Prepare(body, file).value, now))
        && rows == old(rows) + [out.row]
        && nextId == old(nextId) + 1
      ensures out.Created? ==> forall categorias :: GetById(out.row.id, categorias) == Found(Join(out.row, categorias))
      ensures CreateStatus(out) == 201 <==> |rows| == |old(rows)| + 1
      ensures CreateStatus(out) == 400 <==> rows == old(rows)
    {
      var prepared := Prepare(body, file);
      if prepared.Failure? {
        return Rejected(prepared.error);
      }
      if TitleTaken(rows, prepared.value.titulo) {
        return Rejected(DuplicateTitleMessage);
      }
      var row := Recipe(nextId, prepared.value, now);
      InsertKeepsValid(rows, nextId, prepared.value, now);
      rows := rows + [row];
      nextId := nextId + 1;
      out := Created(row);
      assert rows[|rows| - 1] == row;
      forall categorias | true
        ensures GetById(row.id, categorias) == Found(Join(row, categorias))
      {
        GetByIdFindsEachRow(this, |rows| - 1, categorias);
      }
    }
  }

  // ---------------------------------------------------------------------------
  // Properties

  /** With unique titles, a title that is taken is carried by exactly one row. */
  lemma {:induction false} TakenTitleCountsOnce(rows: seq<Recipe>, titulo: JsValue)
    requires UniqueTitles(rows)
    ensures TitleTaken(rows, titulo) ==> CountTitle(rows, titulo) == 1
    ensures !TitleTaken(rows, titulo) ==> CountTitle(rows, titulo) == 0
  {
    if rows != [] {
      var init := rows[..|rows| - 1];
      assert UniqueTitles(init);
      TakenTitleCountsOnce(init, titulo);
      if rows[|rows| - 1].fields.titulo == titulo {
        assert !TitleTaken(init, titulo);
      } else {
        assert TitleTaken(rows, titulo) ==> TitleTaken(init, titulo);
      }
    }
  }

  /** The category ids the seed creates are exactly those recipe creation accepts. */
  lemma SeededIdsAreAccepted(k: int)
    ensures k in Categories.Ids(Categories.Defaults) <==> AcceptedCategory(k)
  {
    Categories.DefaultIdsAre();
  }

  /** "3abc" passes the category check as 3: what follows the digit is ignored. */
  lemma CategoryDigitsThenLetters()
    ensures CategoryAccepted(Str("3abc")) && ParseIntValue(Str("3abc")) == Some(3)
  {
    ParseIntDigitsThenLetters();
    assert ParseIntValue(Str("3abc")) == ParseInt("3abc");
  }

  /** " 2" passes the category check as 2: leading white space is skipped. */
  lemma CategoryLeadingSpace()
    ensures CategoryAccepted(Str(" 2")) && ParseIntValue(Str(" 2")) == Some(2)
  {
    ParseIntLeadingSpace();
    assert ParseIntValue(Str(" 2")) == ParseInt(" 2");
  }

  /** "abc" is NaN and is refused. */
  lemma CategoryNotANumber()
    ensures !CategoryAccepted(Str("abc"))
  {
    ParseIntNoDigits();
    assert ParseIntValue(Str("abc")) == ParseInt("abc") == None;
  }

  /**
   * A one-digit text is always present, and it passes the category check
   * exactly for the digits 1 to 5: "0" and "6" to "9" are refused.
   */
  lemma CategoryOneDigit(d: nat)
    requires d < 10
    ensures Truthy(Str([DecimalChar(d)]))
    ensures CategoryAccepted(Str([DecimalChar(d)])) <==> 1 <= d <= 5
  {
    var text := [DecimalChar(d)];
    ParseIntOneDigit(d);
    assert ParseIntValue(Str(text)) == ParseInt(text) == Some(d);
  }

  /** Every row of the table is found by its id. */
  lemma GetByIdFindsEachRow(store: RecipeStore, i: int, categorias: Categories.Table)
    requires store.Valid() && 0 <= i < |store.rows|
    ensures store.GetById(store.rows[i].id, categorias) == Found(Join(store.rows[i], categorias))
  {
  }

  /** GET /:id answers 404 exactly when no row has the id, and 200 exactly when one has it. */
  lemma LookupAnswer(store: RecipeStore, id: int, categorias: Categories.Table)
    requires store.Valid()
    ensures LookupStatus(store.GetById(id, categorias)) == 404 <==>
      forall i :: 0 <= i < |store.rows| ==> store.rows[i].id != id
    ensures LookupStatus(store.GetById(id, categorias)) == 200 <==>
      exists i :: 0 <= i < |store.rows| && store.rows[i].id == id
  {
  }

  /** Two creates with one title: the second is refused and the title stays on one row. */
  method CreateTwice(store: RecipeStore, body: CreateBody, other: CreateBody,
                     file: Option<Upload>, otherFile: Option<Upload>, t1: int, t2: int)
      returns (first: CreateOutcome, second: CreateOutcome)
    requires store.Valid()
    requires other.titulo == body.titulo
    modifies store
    ensures store.Valid()
    ensures first.Created? && Prepare(other, otherFile).Success? ==>
      second == Rejected(DuplicateTitleMessage) && CountTitle(store.rows, body.titulo) == 1
  {
    first := store.Create(body, file, t1);
    if first.Created? {
      assert store.rows[|store.rows| - 1].fields.titulo == body.titulo;
      assert TitleTaken(store.rows, body.titulo);
    }
    second := store.Create(other, otherFile, t2);
    TakenTitleCountsOnce(store.rows, body.titulo);
  }
}
