# Recipe catalog: recipe store, category seed and local session store

A Dafny model of the stateful core of a recipe-catalog app (an Express
service over PostgreSQL and a React Native client). It covers three parts:

- **Recipe store** (`server/routes/receitas.js`). The `receitas` table is a
  `RecipeStore` class: a sequence of rows plus the next value of the id
  sequence. `POST /` is the `Create` method. It runs the pure `Prepare` step
  first: the presence check with JavaScript truthiness, `parseInt` on
  `categoria_id`, the 1..5 range check, and the `||` defaults with a forced
  `favorita = false`. Then it does the `INSERT`. The unique constraint on
  `titulo` turns a duplicate title into a 400 answer, and nothing is stored.
  `GET /:id` and `GET /` are read-only functions of the table (`GetById`,
  `ListAll`). Both take the `categorias` table as a parameter, for the LEFT
  JOIN that adds the category name.
- **Category seed** (`server/migrations/init.js`). The `categorias` table is a
  `CategoryTable` class holding a map from id to name. `InitializeDatabase`
  runs the loop of `INSERT ... ON CONFLICT DO NOTHING` over the five fixed
  categories. It is proved equal to the fold `Seeded`, and the lemmas prove
  four things about that fold: ids 1..5 all end up present, existing rows are
  never overwritten, other ids are untouched, and seeding twice is the same as
  seeding once.
- **Local account/session store** (`contexts/AuthContext.js`). AsyncStorage is
  a map from keys to stored values. A stored value is either plain text or
  the JSON text of a user object, which the model keeps as an abstract
  record. The provider's `user` and `loading` state sit next to the map. Each
  operation is a function from the old `Session` to an answer and a new
  `Session`: `Bootstrapped`, `SignUpOutcome`, `SignInOutcome` and `SignedOut`.
  The `AuthProvider` class runs the same guard checks and the same key writes
  one step at a time, and each of its methods is proved equal to its function.
  `Date.now()` is passed in as `now`.

The JavaScript semantics these parts depend on live in module `Js`:
ToBoolean (section 7.1.2 of ECMA-262), Number::toString for integral
Numbers, and `parseInt` without a radix (section 19.2.5). `parseInt` skips
leading white space and line terminators, reads an optional sign, then an
optional `0x`/`0X` prefix that switches to radix 16, and then the longest run
of digits. If that run is empty the result is NaN.

Notes on the code's behaviour, which the model follows:

- A duplicate title gets status 400, the same status as a validation failure.
- The category id is checked against the literal range 1..5, not looked up
  in the category table.
- `ingredientes` is stored exactly as sent, or null.
- `tempo_preparo` is not converted to an integer. Its value is passed
  through `|| 0`.
- `avaliacao` is `avaliacao || 0`, with no range check.

## Model

| member | source | states |
|---|---|---|
| `Js.LeadingWhiteSpace` | server/routes/receitas.js:77 | parseInt's TrimString step: the count it returns covers only white space, and the character after it is not white space |
| `Js.FalsyValues` | server/routes/receitas.js:70 | ToBoolean, used by every `!x` and `||`: undefined, null, false, 0 and "" are exactly the falsy values |
| `Js.OrLaws` | server/routes/receitas.js:103-112 | `a || b` is truthy exactly when a or b is, a truthy default makes it truthy, and `||` groups either way |
| `Js.ParseInt` | server/routes/receitas.js:77 | parseInt gives a number only when the first character after white space is a decimal digit or a sign, and a negative number only after a minus sign |
| `Js.ParseIntValue` | server/routes/receitas.js:77 | parseInt(v) on a Number gives that Number back; on undefined, null, true or false it is NaN |
| `Js.ParseIntOfWord` | server/routes/receitas.js:77 | text starting with a lower-case letter, such as "undefined" or "null", is NaN |
| `Js.DigitRunLength` | server/routes/receitas.js:77 | parseInt reads the longest run of radix digits: every character counted is a digit, and the one after the run is not |
| `Js.ParseIntIgnoresTrailing` | server/routes/receitas.js:77 | a decimal numeral followed by a non-digit parses to the numeral's value, so "3abc" gives 3 (a lone "0" followed by "x" is excluded, because "0x" is a hex prefix) |
| `Js.ParseIntSkipsWhiteSpace` | server/routes/receitas.js:77 | leading white space never changes the result of parseInt |
| `Js.ParseIntNaN` | server/routes/receitas.js:77-78 | if the text after white space and sign does not start with a digit, the result is NaN |
| `Js.ParseIntOfNumberToString` | server/routes/receitas.js:77 | parseInt inverts ToString on integral Numbers, so a numeric `categoria_id` n parses back to n |
| `Js.ParseIntOneDigit` | server/routes/receitas.js:77 | a single decimal digit parses to its value |
| `Js.ParseIntDigitsThenLetters` | server/routes/receitas.js:77 | parseInt("3abc") is 3 |
| `Js.ParseIntLeadingSpace` | server/routes/receitas.js:77 | parseInt(" 2") is 2 |
| `Js.ParseIntHexPrefix` | server/routes/receitas.js:77 | parseInt("0x5") is 5: without a radix, a 0x prefix selects radix 16 |
| `Js.ParseIntNoDigits` | server/routes/receitas.js:77 | parseInt("abc") and parseInt("-") are NaN |
| `Js.ParseIntBareHexPrefix` | server/routes/receitas.js:77 | parseInt("0x") is NaN, not 0 |
| `Recipes.Prepare` | server/routes/receitas.js:64-113 | fails with the "obrigatórios" message exactly when titulo, categoria_id or dificuldade is falsy; fails with "Categoria inválida" exactly when they are all present and parseInt(categoria_id) is NaN or outside 1..5; otherwise succeeds with categoriaId equal to the parsed value in 1..5, favorita false, titulo and dificuldade kept, descricao/ingredientes/modo_preparo kept when truthy and null otherwise, tempo_preparo 0, usuario_id 1 and avaliacao 0 when falsy, and imagem equal to the upload's filename or null |
| `Recipes.RecipeStore.Create` | server/routes/receitas.js:50-127 | a validation failure returns its 400 message and leaves the table and id sequence unchanged; a title already present returns the duplicate-title 400 and leaves them unchanged; otherwise exactly one row is appended (next id, the prepared values, the creation time), it is returned, and GetById then returns it; the status is 201 exactly when a row was added and 400 exactly when the table is unchanged; the table constraints (unique ids and titles, categories 1..5) are kept |
| `Recipes.RecipeStore.GetById` | server/routes/receitas.js:27-47 | NotFound exactly when no row has the id; otherwise the row with that id, joined with its category name |
| `Recipes.LookupAnswer` | server/routes/receitas.js:36-42 | GET /:id answers 404 exactly when no row has the id, and 200 exactly when some row has it |
| `Recipes.GetByIdFindsEachRow` | server/routes/receitas.js:27-47 | every row of a well-formed table is found by its own id, joined with its category name |
| `Recipes.RecipeStore.constructor` | server/routes/receitas.js:84-99 | the `receitas` table the INSERT writes into starts empty, with the id sequence at 1, and meets the table constraints |
| `Recipes.InsertKeepsValid` | server/routes/receitas.js:84-113 | appending a row with the next id, a free title and a category in 1..5 keeps ids unique and below the sequence, titles unique and categories valid |
| `Recipes.RecipeStore.ListAll` | server/routes/receitas.js:10-24 | every row exactly once (same multiset), ordered by data_criacao descending; the LEFT JOIN gives each row its category's name, or null when no category row has its id, so a row is never dropped for a missing category |
| `Recipes.SortNewestFirst` | server/routes/receitas.js:16 | ORDER BY data_criacao DESC: the result is sorted newest first and is a permutation of the rows |
| `Recipes.InsertByDate` | server/routes/receitas.js:16 | inserting one row into a newest-first list keeps it sorted and adds exactly that row |
| `Recipes.TakenTitleCountsOnce` | server/routes/receitas.js:118-123 | while titles are unique, a title that is taken is carried by exactly one row, and a free title by none |
| `Recipes.CreateTwice` | server/routes/receitas.js:118-123 | if two creates (each with its own upload) use one title and the first succeeds, the second returns the duplicate-title 400 whenever its own fields are valid, and exactly one row has that title afterwards |
| `Recipes.SeededIdsAreAccepted` | server/routes/receitas.js:78 | the ids inserted by the category seed (init.js lines 12-18) are exactly the ids the range check accepts |
| `Recipes.CategoryDigitsThenLetters` | server/routes/receitas.js:77-82 | "3abc" passes the category check as 3 |
| `Recipes.CategoryLeadingSpace` | server/routes/receitas.js:77-82 | " 2" passes the category check as 2 |
| `Recipes.CategoryNotANumber` | server/routes/receitas.js:77-82 | "abc" fails the category check |
| `Recipes.CategoryOneDigit` | server/routes/receitas.js:70-82 | a one-digit text is present and passes the category check exactly for 1..5, so "0" and "6" to "9" are rejected as invalid categories |
| `Categories.InsertIfAbsent` | server/migrations/init.js:21-24 | ON CONFLICT DO NOTHING: the id is added only when absent, and no existing row changes |
| `Categories.SeedAll` | server/migrations/init.js:20-25 | the loop adds exactly the ids of the listed categories and never overwrites an existing row |
| `Categories.Seeded` | server/migrations/init.js:12-25 | the seeded table has the old ids plus 1..5, and every existing row keeps its name |
| `Categories.CategoryTable.InitializeDatabase` | server/migrations/init.js:20-25 | the imperative seed loop leaves the table equal to the seeded table |
| `Categories.DefaultIdsAre` | server/migrations/init.js:12-18 | the fixed categories have ids 1, 2, 3, 4 and 5 |
| `Categories.SeededHasAllDefaults` | server/migrations/init.js:12-25 | after seeding, ids 1..5 are all present, and no other id was added |
| `Categories.SeededKeepsExisting` | server/migrations/init.js:22 | seeding never overwrites: an id already present keeps its old name |
| `Categories.SeededOutsideUnchanged` | server/migrations/init.js:12-25 | rows with ids outside 1..5 are untouched, and no such id is added |
| `Categories.SeedAllPresent` | server/migrations/init.js:20-25 | if every listed id is already present, the loop changes nothing |
| `Categories.SeededIdempotent` | server/migrations/init.js:20-25 | seeding twice gives the same table as seeding once |
| `Categories.SeedAllFirstWins` | server/migrations/init.js:20-25 | an id that was absent gets the name of the first listed category carrying it |
| `Categories.SeededNames` | server/migrations/init.js:12-25 | a missing fixed category is created with its fixed name |
| `Auth.AccountKeysAreSeparate` | contexts/AuthContext.js:36-47 | `user_<email>` never collides with `userToken`, `user` or `lastEmail`, and different emails have different keys |
| `Auth.TokenDeterminesTime` | contexts/AuthContext.js:41 | a token is `token_` followed by the clock reading, and distinct readings give distinct tokens |
| `Auth.JsonText` | contexts/AuthContext.js:45-47 | JSON.stringify of a user object is a braced text, so it is never empty |
| `Auth.PresentIsTruthyItem` | contexts/AuthContext.js:16-19 | a getItem answer is truthy exactly when the key is present and its text is not empty, as the tests at lines 17, 19, 37 and 64 use it |
| `Auth.Bootstrapped` | contexts/AuthContext.js:14-28 | loading ends false and storage is unchanged; `user` changes only when both `userToken` and `user` are present, and then it is the stored user object |
| `Auth.SignUpOutcome` | contexts/AuthContext.js:30-55 | "Preencha todos os campos" exactly when email, password or nome is empty; "Email já cadastrado" exactly when they are all given and `user_<email>` is present; success exactly when they are all given and `user_<email>` is absent; a failure changes nothing; a success writes userToken, user, lastEmail and `user_<email>` (the only record with the password), leaves every other key alone, and sets `user` to {id 1, email, nome, token} with no password |
| `Auth.SignInOutcome` | contexts/AuthContext.js:57-96 | "Email e senha obrigatórios" exactly when email or password is empty; success exactly when `user_<email>` holds an account with that password; a failure changes nothing; a success writes userToken, user and lastEmail, leaves every other key alone, and sets `user` to the account's id, email and nome with a fresh token |
| `Auth.SignedOut` | contexts/AuthContext.js:98-106 | removes exactly userToken and user, keeps every other key (accounts and lastEmail), and sets `user` to null |
| `Auth.AuthProvider.constructor` | contexts/AuthContext.js:7-8 | the provider starts with no user and loading true, over the persisted storage |
| `Auth.AuthProvider.BootstrapAsync` | contexts/AuthContext.js:14-28 | the step-by-step getItem checks and setUser/setLoading calls give the state `Bootstrapped` describes |
| `Auth.AuthProvider.SignUp` | contexts/AuthContext.js:30-55 | the guard checks and four setItem calls give the answer and state `SignUpOutcome` describes |
| `Auth.AuthProvider.SignIn` | contexts/AuthContext.js:57-96 | the guard checks and three setItem calls give the answer and state `SignInOutcome` describes |
| `Auth.AuthProvider.SignOut` | contexts/AuthContext.js:98-106 | the two removeItem calls and setUser(null) give the state `SignedOut` describes |
| `Auth.SignUpPreservesConsistent` | contexts/AuthContext.js:41-50 | signUp keeps the store well formed: each `user_<e>` holds an account of e with a password, and `user` and the session user hold no password |
| `Auth.SignInPreservesConsistent` | contexts/AuthContext.js:77-89 | signIn keeps the store well formed |
| `Auth.SignOutPreservesConsistent` | contexts/AuthContext.js:98-106 | signOut keeps the store well formed |
| `Auth.BootstrapPreservesConsistent` | contexts/AuthContext.js:14-28 | the bootstrap keeps the store well formed |
| `Auth.SignInUserHasTypedEmail` | contexts/AuthContext.js:63-89 | on a well-formed store, a successful signIn sets `user` with the email that was typed in |
| `Auth.SignInHidesWhichCredentialFailed` | contexts/AuthContext.js:63-75 | an unknown email and a wrong password both get "Email ou senha incorretos" and change nothing |
| `Auth.SignUpThenSignIn` | contexts/AuthContext.js:30-96 | after a successful signUp(e, p, n), signIn(e, p) succeeds with user {id 1, e, n} |
| `Auth.SignOutKeepsAccount` | contexts/AuthContext.js:98-106 | signIn gives the same answer after signOut as before it, and on success the same user |
| `Auth.SignUpSignOutSignIn` | contexts/AuthContext.js:30-106 | signUp, then signOut, then signIn with the same credentials signs the same user in again |
| `Auth.SignUpSurvivesRestart` | contexts/AuthContext.js:14-50 | after a successful signUp, the bootstrap of the next launch restores the same user |
| `Auth.SignOutSurvivesRestart` | contexts/AuthContext.js:14-106 | after signOut, the bootstrap of the next launch restores no user |

## Left out

- The update and delete routes are elided in receitas.js (the comment at line 129). Favourite toggling, deletion, client-side filtering and optimistic updates are therefore not modelled.
- Express routing, multer configuration, the database driver and the SQL text are not modelled. An upload is reduced to its filename, and the `details` field of the duplicate-title answer (the driver's message) is dropped.
- Every 500 path is left out, because each depends on a failing database or on the driver: a failing query in any route, and a body that cannot be destructured.
- The table schema is not part of the source, so the database's column types are not modelled. Stored columns keep the JavaScript value as passed. A value an integer column would refuse (for example `tempo_preparo: "abc"`, which the database answers with a 500) is stored as given.
- The unique-title check compares JavaScript values. The database compares their text, so the number 5 and the text "5" would collide there but not in the model.
- The id sequence advances only when an insert succeeds. A PostgreSQL serial column also uses up a value on a failed insert. Ids stay unique either way.
- `GET /:id` takes the id as an integer. The database's conversion of the path text, and its 500 for non-numeric text, are left out.
- Create is one atomic step. Concurrent inserts racing on the unique constraint belong to the database.
- JavaScript Numbers are modelled only as integral values of magnitude below 10^21 (`Js.JsInt`). Fractions, NaN, Infinity, -0 and the exponent form of ToString are not modelled. parseInt's result is the exact integer, not the nearest double. This does not change the 1..5 decision, because rounding never moves a value across 1 or 5.
- Arrays and objects in a JSON body are reduced to their ToString text (`Js.JsValue.Object`).
- Index creation (init.js lines 6-9) and the `?` placeholder syntax of the seed query are left out. The seed's catch, which stops at the first failing insert, is left out too.
- ON CONFLICT DO NOTHING without a target also skips a row that conflicts on any other unique constraint of `categorias`. The schema is not shown, so only conflicts on the id are modelled.
- AsyncStorage calls are treated as sequential. The catch branches for storage failures are left out. So are React plumbing (context creation, `useAuth`, `useEffect`, the Provider render) and console logging.
- `Auth.JsonText` does not escape quotes or control characters inside strings, and JSON.parse is not modelled on text; a plain-text value is modelled as throwing. Texts that happen to be valid JSON are not told apart.
- The presentational components (`app/components/*`) and the screens are not part of this model.
