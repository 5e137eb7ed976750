/**
 * The category service (src/services/category.ts) over the mock database: listing with the
 * hidden filter and the name order, lookup, create-or-replace, patching (with the three-way
 * colour rule), hiding, and deletion guarded by the expenses that use the category.
 *
 * `localeCompare` on names is taken as the order of Unicode scalar values (StrLe), a total
 * order on strings.
 */
module CategoryService {
  import opened Wrappers
  import opened Json
  import opened Strings
  import opened Records
  import opened Schemas
  import opened Sorting
  import opened MockDatabase

  function NotFoundMessage(id: string): string { "Category " + id + " not found" }

  const InUseMessage := "Cannot delete category that has associated expenses. Consider hiding it instead."

  // ------------------------------------------------------------ listCategories

  /** `options.includeHidden || !category.isHidden`. */
  function Visible(includeHidden: Option<bool>): (p: Category -> bool)
    ensures forall c :: p(c) <==> includeHidden == Some(true) || !c.isHidden
  {
    (c: Category) => includeHidden == Some(true) || !c.isHidden
  }

  /** The sort comparator: `a` may stay before `b` when its name is not greater. */
  function NameOrder(): (le: (Category, Category) -> bool)
    ensures forall a, b :: le(a, b) == StrLe(a.name, b.name)
  {
    (a: Category, b: Category) => StrLe(a.name, b.name)
  }

  lemma NameOrderIsTotalPreorder()
    ensures TotalPreorder(NameOrder())
  {
    forall a: string, b: string ensures StrLe(a, b) || StrLe(b, a) {
      StrLeTotal(a, b);
    }
    forall a: string, b: string, c: string ensures StrLe(a, b) && StrLe(b, c) ==> StrLe(a, c) {
      StrLeTransitive(a, b, c);
    }
  }

  /** filter, then `map(toCategory)`, then sort by name. */
  function ListCategoriesResult(categories: seq<Category>, includeHidden: Option<bool>): (r: Outcome<seq<Category>>)
    ensures r.Success? <==>
      forall c :: c in categories && (includeHidden == Some(true) || !c.isHidden) ==> ToCategory(c).Success?
  {
    var shown := Filter(categories, Visible(includeHidden));
    forall c | c in categories && Visible(includeHidden)(c) ensures c in shown {
      FilterMembers(categories, Visible(includeHidden), c);
    }
    var parsed := TryMap(shown, ToCategory);
    if parsed.Failure? then Failure(parsed.error) else Success(SortBy(parsed.value, NameOrder()))
  }

  /**
   * The listing is exactly the visible stored categories, each read back through the schema,
   * as often as they are stored: a permutation of them.
   */
  lemma ListCategoriesIsPermutation(categories: seq<Category>, includeHidden: Option<bool>)
    requires ListCategoriesResult(categories, includeHidden).Success?
    ensures var shown := Filter(categories, Visible(includeHidden));
      multiset(ListCategoriesResult(categories, includeHidden).value) ==
      multiset(TryMap(shown, ToCategory).value)
  {
  }

  /** Every listed category is a visible stored category read back through the schema. */
  lemma ListCategoriesMembers(categories: seq<Category>, includeHidden: Option<bool>, i: int)
    requires ListCategoriesResult(categories, includeHidden).Success?
    requires 0 <= i < |ListCategoriesResult(categories, includeHidden).value|
    ensures var c := ListCategoriesResult(categories, includeHidden).value[i];
      && (includeHidden != Some(true) ==> !c.isHidden)
      && exists j :: 0 <= j < |categories| && ToCategory(categories[j]) == Success(c)
  {
    var shown := Filter(categories, Visible(includeHidden));
    var parsed := TryMap(shown, ToCategory).value;
    var r := ListCategoriesResult(categories, includeHidden).value;
    assert r[i] in multiset(parsed);
    var k :| 0 <= k < |parsed| && parsed[k] == r[i];
    assert ToCategory(shown[k]) == Success(r[i]);
    var j :| 0 <= j < |categories| && categories[j] == shown[k];
  }

  /** Every visible stored category appears in the listing (normalised by the schema). */
  lemma ListCategoriesComplete(categories: seq<Category>, includeHidden: Option<bool>, j: int)
    requires ListCategoriesResult(categories, includeHidden).Success?
    requires 0 <= j < |categories| && (includeHidden == Some(true) || !categories[j].isHidden)
    ensures ToCategory(categories[j]).Success?
    ensures ToCategory(categories[j]).value in ListCategoriesResult(categories, includeHidden).value
  {
    var shown := Filter(categories, Visible(includeHidden));
    FilterMembers(categories, Visible(includeHidden), categories[j]);
    var k :| 0 <= k < |shown| && shown[k] == categories[j];
    var parsed := TryMap(shown, ToCategory).value;
    assert parsed[k] == ToCategory(categories[j]).value;
    assert parsed[k] in multiset(parsed);
  }

  /** The listing is ordered by name. */
  lemma ListCategoriesSorted(categories: seq<Category>, includeHidden: Option<bool>, i: int, j: int)
    requires ListCategoriesResult(categories, includeHidden).Success?
    requires 0 <= i < j < |ListCategoriesResult(categories, includeHidden).value|
    ensures var r := ListCategoriesResult(categories, includeHidden).value;
      StrLe(r[i].name, r[j].name)
  {
    NameOrderIsTotalPreorder();
    var parsed := TryMap(Filter(categories, Visible(includeHidden)), ToCategory).value;
    SortBySorted(parsed, NameOrder());
    var r := ListCategoriesResult(categories, includeHidden).value;
    assert NameOrder()(r[i], r[j]);
  }

  method ListCategories(db: Database, includeHidden: Option<bool>) returns (r: Outcome<seq<Category>>)
    requires db.Valid()
    ensures r == ListCategoriesResult(db.categories.data, includeHidden)
  {
    var all := db.categories.ToArray();
    var parsed := TryMap(Filter(all, Visible(includeHidden)), ToCategory);
    if parsed.Failure? {
      return Failure(parsed.error);
    }
    r := Success(SortBy(parsed.value, NameOrder()));
  }

  // ------------------------------------------------------------ getCategoryById

  function GetCategoryByIdResult(categories: seq<Category>, id: string): (r: Outcome<Option<Category>>)
    ensures r == Success(None) <==> forall i :: 0 <= i < |categories| ==> categories[i].id != id
    ensures r.Success? && r.value.Some? ==>
      r.value.value.id == id && exists i :: 0 <= i < |categories| && ToCategory(categories[i]) == Success(r.value.value)
  {
    var found := Lookup(categories, CategoryKey, id);
    if found.None? then Success(None)
    else
      var c :- ToCategory(found.value);
      var i :| 0 <= i < |categories| && categories[i] == found.value;
      Success(Some(c))
  }

  method GetCategoryById(db: Database, id: string) returns (r: Outcome<Option<Category>>)
    requires db.Valid()
    ensures r == GetCategoryByIdResult(db.categories.data, id)
  {
    var found := db.categories.Get(id);
    if found.None? {
      r := Success(None);
    } else {
      var c := ToCategory(found.value);
      r := if c.Success? then Success(Some(c.value)) else Failure(c.error);
    }
  }

  // ------------------------------------------------------------ createCategory

  /** The record createCategory writes: the trimmed name, not hidden unless asked, stamped `now`. */
  function NewCategory(p: CategoryCreate, now: string, newId: string): Category {
    Category(p.id.GetOr(newId), Trim(p.name), p.color, p.isHidden.GetOr(false), now, now)
  }

  /** Every stored category passes CategorySchema. */
  predicate AllValid(categories: seq<Category>) {
    forall i :: 0 <= i < |categories| ==> ToCategory(categories[i]).Success?
  }

  /** createCategory as written: parse, put the trimmed record, and only then validate it. */
  function CreateCategoryEffect(categories: seq<Category>, input: Json, now: string, newId: string): (w: Effect<Category, Category>)
    ensures ParseCategoryCreate(input).Failure? ==> w == Effect(Failure(ValidationError), categories)
    ensures ParseCategoryCreate(input).Success? ==>
      w.table == Upsert(categories, CategoryKey, NewCategory(ParseCategoryCreate(input).value, now, newId))
  {
    match ParseCategoryCreate(input)
    case Failure(e) => Effect(Failure(e), categories)
    case Success(p) =>
      var record := NewCategory(p, now, newId);
      Effect(ToCategory(record), Upsert(categories, CategoryKey, record))
  }

  /** A successful create stores the trimmed name under its id, and touches no other id. */
  lemma CreateCategoryStores(categories: seq<Category>, input: Json, now: string, newId: string, other: string)
    requires CreateCategoryEffect(categories, input, now, newId).result.Success?
    ensures var p := ParseCategoryCreate(input).value;
      var c := CreateCategoryEffect(categories, input, now, newId).result.value;
      var table := CreateCategoryEffect(categories, input, now, newId).table;
      && c.id == p.id.GetOr(newId) && c.name == Trim(p.name) && c.color == p.color
      && c.isHidden == (p.isHidden == Some(true))
      && c.createdAt == now && c.updatedAt == now
      && Lookup(table, CategoryKey, c.id) == Some(NewCategory(p, now, newId))
      && (other != c.id ==> Lookup(table, CategoryKey, other) == Lookup(categories, CategoryKey, other))
  {
    var p := ParseCategoryCreate(input).value;
    var record := NewCategory(p, now, newId);
    if p.color.Some? {
      NormalizeHexColorIdempotent(input.fields["color"].s);
    }
    LookupUpsertSame(categories, CategoryKey, record);
    if other != record.id {
      LookupUpsertOther(categories, CategoryKey, record, other);
    }
  }

  /**
   * The discrepancy: a name made only of whitespace passes the create schema, is trimmed to
   * the empty string and stored, and only then rejected; the table keeps the invalid record.
   */
  lemma CreateCategoryStoresBlankName(categories: seq<Category>, input: Json, now: string, newId: string)
    requires ParseCategoryCreate(input).Success? && AllWhitespace(ParseCategoryCreate(input).value.name)
    ensures var w := CreateCategoryEffect(categories, input, now, newId);
      var id := ParseCategoryCreate(input).value.id.GetOr(newId);
      && w.result == Failure(ValidationError)
      && Lookup(w.table, CategoryKey, id).Some?
      && Lookup(w.table, CategoryKey, id).value.name == ""
      && !AllValid(w.table)
  {
    var p := ParseCategoryCreate(input).value;
    TrimEmptyIff(p.name);
    var record := NewCategory(p, now, newId);
    var w := CreateCategoryEffect(categories, input, now, newId);
    LookupUpsertSame(categories, CategoryKey, record);
    var bad := Lookup(w.table, CategoryKey, record.id).value;
    var j :| 0 <= j < |w.table| && w.table[j] == bad;
    assert !ToCategory(w.table[j]).Success?;
  }

  /** Such an input exists: `{ name: "   " }`. */
  lemma BlankNameIsAccepted()
    ensures var input := JObj(map["name" := JStr("   ")]);
      ParseCategoryCreate(input) == Success(CategoryCreate(None, "   ", None, None)) &&
      AllWhitespace(ParseCategoryCreate(input).value.name)
  {
    var input := JObj(map["name" := JStr("   ")]);
    assert input.fields.Keys == {"name"};
  }

  /** createCategory as evidently intended: the trimmed record is validated before it is written. */
  function CreateCategoryCheckedEffect(categories: seq<Category>, input: Json, now: string, newId: string): (w: Effect<Category, Category>)
    ensures w.result.Failure? ==> w.table == categories
    ensures w.result.Success? ==>
      && ParseCategoryCreate(input).Success?
      && w.table == Upsert(categories, CategoryKey, NewCategory(ParseCategoryCreate(input).value, now, newId))
  {
    match ParseCategoryCreate(input)
    case Failure(e) => Effect(Failure(e), categories)
    case Success(p) =>
      var record := NewCategory(p, now, newId);
      match ToCategory(record)
      case Failure(e) => Effect(Failure(e), categories)
      case Success(c) => Effect(Success(c), Upsert(categories, CategoryKey, record))
  }

  /** The corrected create keeps every stored category valid, and agrees with the original when it succeeds. */
  lemma CreateCategoryCheckedKeepsValid(categories: seq<Category>, input: Json, now: string, newId: string)
    requires AllValid(categories)
    ensures AllValid(CreateCategoryCheckedEffect(categories, input, now, newId).table)
    ensures CreateCategoryEffect(categories, input, now, newId).result.Success? ==>
      CreateCategoryCheckedEffect(categories, input, now, newId) == CreateCategoryEffect(categories, input, now, newId)
  {
    var w := CreateCategoryCheckedEffect(categories, input, now, newId);
    if w.result.Success? {
      var record := NewCategory(ParseCategoryCreate(input).value, now, newId);
      assert ToCategory(record).Success?;
      var i := IndexOfKey(categories, CategoryKey, record.id);
      forall k | 0 <= k < |w.table| ensures ToCategory(w.table[k]).Success? {
        if i >= 0 {
          assert w.table[k] == if k == i then record else categories[k];
        } else {
          assert w.table[k] == if k == |categories| then record else categories[k];
        }
      }
    }
  }

  /** A valid name is never rejected by the corrected create: a non-blank name of at most 40 characters. */
  lemma CreateCategoryCheckedSucceeds(categories: seq<Category>, input: Json, now: string, newId: string)
    requires ParseCategoryCreate(input).Success? && IsIsoDateTime(now)
    requires !AllWhitespace(ParseCategoryCreate(input).value.name)
    ensures CreateCategoryCheckedEffect(categories, input, now, newId).result.Success?
  {
    var p := ParseCategoryCreate(input).value;
    if p.color.Some? {
      NormalizeHexColorIdempotent(input.fields["color"].s);
    }
    NewCategoryValid(p, now, newId);
  }

  /** A non-blank name of at most 40 code units, a hex colour and a valid clock make a valid record. */
  lemma NewCategoryValid(p: CategoryCreate, now: string, newId: string)
    requires Utf16Length(p.name) <= 40 && !AllWhitespace(p.name) && IsIsoDateTime(now)
    requires p.color.Some? ==> IsHexColor(p.color.value)
    ensures ToCategory(NewCategory(p, now, newId)).Success?
  {
    TrimEmptyIff(p.name);
    TrimUtf16Length(p.name);
  }

  method CreateCategory(db: Database, input: Json, now: string, newId: string) returns (r: Outcome<Category>)
    requires db.Valid()
    modifies db.categories
    ensures r == CreateCategoryEffect(old(db.categories.data), input, now, newId).result
    ensures db.categories.data == CreateCategoryEffect(old(db.categories.data), input, now, newId).table
  {
    var parsed := ParseCategoryCreate(input);
    if parsed.Failure? {
      return Failure(parsed.error);
    }
    var record := NewCategory(parsed.value, now, newId);
    var _ := db.categories.Put(record);
    r := ToCategory(record);
  }

  // ------------------------------------------------------------ updateCategory

  /** The colour after a patch: `null` clears it, an absent colour keeps it, a colour replaces it. */
  function PatchColor(existing: Option<string>, patch: Nullish<string>): Option<string> {
    match patch
    case Null => None
    case Undefined => existing
    case Value(c) => Some(c)
  }

  /** `{ ...existing, ...parsed, color: …, updatedAt: now }`. */
  function PatchCategory(existing: Category, p: CategoryPatch, now: string): (c: Category)
    ensures c.id == existing.id && c.createdAt == existing.createdAt && c.updatedAt == now
    ensures c.name == (if p.name.Some? then p.name.value else existing.name)
    ensures c.isHidden == (if p.isHidden.Some? then p.isHidden.value else existing.isHidden)
    ensures p.color.Null? ==> c.color.None?
    ensures p.color.Undefined? ==> c.color == existing.color
    ensures p.color.Value? ==> c.color == Some(p.color.value)
  {
    existing.(name := p.name.GetOr(existing.name),
              isHidden := p.isHidden.GetOr(existing.isHidden),
              color := PatchColor(existing.color, p.color),
              updatedAt := now)
  }

  function UpdateCategoryEffect(categories: seq<Category>, id: string, patch: Json, now: string): (w: Effect<Category, Category>)
    ensures ParseCategoryUpdate(patch).Failure? ==> w == Effect(Failure(ValidationError), categories)
    ensures ParseCategoryUpdate(patch).Success? && Lookup(categories, CategoryKey, id).None? ==>
      w == Effect(Failure(Thrown(NotFoundMessage(id))), categories)
  {
    match ParseCategoryUpdate(patch)
    case Failure(e) => Effect(Failure(e), categories)
    case Success(p) =>
      match Lookup(categories, CategoryKey, id)
      case None => Effect(Failure(Thrown(NotFoundMessage(id))), categories)
      case Some(existing) =>
        var record := PatchCategory(existing, p, now);
        Effect(ToCategory(record), Upsert(categories, CategoryKey, record))
  }

  /** An update of a stored id rewrites that record in place, whatever the result, and nothing else. */
  lemma UpdateCategoryStores(categories: seq<Category>, id: string, patch: Json, now: string, other: string)
    requires ParseCategoryUpdate(patch).Success? && Lookup(categories, CategoryKey, id).Some?
    ensures var existing := Lookup(categories, CategoryKey, id).value;
      var record := PatchCategory(existing, ParseCategoryUpdate(patch).value, now);
      var w := UpdateCategoryEffect(categories, id, patch, now);
      && w.result == ToCategory(record)
      && Lookup(w.table, CategoryKey, id) == Some(record)
      && |w.table| == |categories|
      && (other != id ==> Lookup(w.table, CategoryKey, other) == Lookup(categories, CategoryKey, other))
  {
    var existing := Lookup(categories, CategoryKey, id).value;
    var record := PatchCategory(existing, ParseCategoryUpdate(patch).value, now);
    LookupUpsertSame(categories, CategoryKey, record);
    if other != id {
      LookupUpsertOther(categories, CategoryKey, record, other);
    }
  }

  /** The colour rule seen from the input: `color: null` clears, no `color` key keeps, a colour sets (normalised). */
  lemma UpdateCategoryColor(categories: seq<Category>, id: string, patch: Json, now: string)
    requires ParseCategoryUpdate(patch).Success? && Lookup(categories, CategoryKey, id).Some?
    ensures var existing := Lookup(categories, CategoryKey, id).value;
      var stored := Lookup(UpdateCategoryEffect(categories, id, patch, now).table, CategoryKey, id);
      && stored.Some?
      && ("color" !in patch.fields ==> stored.value.color == existing.color)
      && ("color" in patch.fields && patch.fields["color"] == JNull ==> stored.value.color.None?)
      && ("color" in patch.fields && patch.fields["color"].JStr? ==>
            stored.value.color == Some(NormalizeHexColor(patch.fields["color"].s)))
      && stored.value.updatedAt == now
  {
    UpdateCategoryStores(categories, id, patch, now, id);
  }

  method UpdateCategory(db: Database, id: string, patch: Json, now: string) returns (r: Outcome<Category>)
    requires db.Valid()
    modifies db.categories
    ensures r == UpdateCategoryEffect(old(db.categories.data), id, patch, now).result
    ensures db.categories.data == UpdateCategoryEffect(old(db.categories.data), id, patch, now).table
  {
    var parsed := ParseCategoryUpdate(patch);
    if parsed.Failure? {
      return Failure(parsed.error);
    }
    var existing := db.categories.Get(id);
    if existing.None? {
      return Failure(Thrown(NotFoundMessage(id)));
    }
    var record := PatchCategory(existing.value, parsed.value, now);
    var _ := db.categories.Put(record);
    r := ToCategory(record);
  }

  // ------------------------------------------------------------ setCategoryHidden

  /** The patch `{ isHidden }`. */
  function HiddenPatch(isHidden: bool): Json {
    JObj(map["isHidden" := JBool(isHidden)])
  }

  /** setCategoryHidden is an update that sets only the flag (and the update stamp). */
  lemma SetCategoryHiddenOnlyFlag(categories: seq<Category>, id: string, isHidden: bool, now: string)
    ensures ParseCategoryUpdate(HiddenPatch(isHidden)) == Success(CategoryPatch(None, Undefined, Some(isHidden)))
    ensures Lookup(categories, CategoryKey, id).None? ==>
      UpdateCategoryEffect(categories, id, HiddenPatch(isHidden), now) ==
        Effect(Failure(Thrown(NotFoundMessage(id))), categories)
    ensures Lookup(categories, CategoryKey, id).Some? ==>
      Lookup(UpdateCategoryEffect(categories, id, HiddenPatch(isHidden), now).table, CategoryKey, id) ==
        Some(Lookup(categories, CategoryKey, id).value.(isHidden := isHidden, updatedAt := now))
  {
    var patch := HiddenPatch(isHidden);
    assert patch.fields.Keys == {"isHidden"};
    if Lookup(categories, CategoryKey, id).Some? {
      UpdateCategoryStores(categories, id, patch, now, id);
    }
  }

  method SetCategoryHidden(db: Database, id: string, isHidden: bool, now: string) returns (r: Outcome<Category>)
    requires db.Valid()
    modifies db.categories
    ensures r == UpdateCategoryEffect(old(db.categories.data), id, HiddenPatch(isHidden), now).result
    ensures db.categories.data == UpdateCategoryEffect(old(db.categories.data), id, HiddenPatch(isHidden), now).table
  {
    r := UpdateCategory(db, id, HiddenPatch(isHidden), now);
  }

  // ------------------------------------------------------------ deleteCategory

  /** The guard of deleteCategory: the expenses filed under the category. */
  function UsageCount(expenses: seq<Expense>, id: string): nat {
    |Filter(expenses, WhereEquals(ExpenseCategory, id))|
  }

  function DeleteCategoryEffect(categories: seq<Category>, expenses: seq<Expense>, id: string): (w: Effect<(), Category>)
    ensures w.result.Failure? ==> w.table == categories
  {
    if UsageCount(expenses, id) > 0 then Effect(Failure(Thrown(InUseMessage)), categories)
    else Effect(Success(()), Without(categories, CategoryKey, id))
  }

  /** Deletion is refused exactly when some expense uses the category; otherwise the id is gone and the rest stays. */
  lemma DeleteCategoryGuard(categories: seq<Category>, expenses: seq<Expense>, id: string, other: string)
    ensures var w := DeleteCategoryEffect(categories, expenses, id);
      w.result.Failure? <==> exists i :: 0 <= i < |expenses| && expenses[i].categoryId == id
    ensures var w := DeleteCategoryEffect(categories, expenses, id);
      && (w.result.Failure? ==> w.result.error == Thrown(InUseMessage))
      && (w.result.Success? ==>
            && Lookup(w.table, CategoryKey, id).None?
            && (other != id ==> Lookup(w.table, CategoryKey, other) == Lookup(categories, CategoryKey, other)))
  {
    var p := WhereEquals(ExpenseCategory, id);
    var f := Filter(expenses, p);
    if |f| > 0 {
      FilterMembers(expenses, p, f[0]);
    } else {
      forall i | 0 <= i < |expenses| ensures expenses[i].categoryId != id {
        FilterMembers(expenses, p, expenses[i]);
      }
      LookupWithout(categories, CategoryKey, id, other);
    }
  }

  method DeleteCategory(db: Database, id: string) returns (r: Outcome<()>)
    requires db.Valid()
    modifies db.categories
    ensures r == DeleteCategoryEffect(old(db.categories.data), db.expenses.data, id).result
    ensures db.categories.data == DeleteCategoryEffect(old(db.categories.data), db.expenses.data, id).table
  {
    var usage := db.expenses.SelectCount(WhereEquals(ExpenseCategory, id));
    if usage > 0 {
      return Failure(Thrown(InUseMessage));
    }
    db.categories.Delete(id);
    r := Success(());
  }
}
