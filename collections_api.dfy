/** The REST controller of the Collections module
    (modules/Collections/Controller/RestApi.php): reading entries with
    field-level access control, saving and removing entries, and the
    photo-exchange upload of a discussion. */
module CollectionsApi {
  import opened PhpValues
  import opened Http
  import Templates

  // ===========================================================================
  // The collaborators

  /** One field of a collection definition; an absent key reads as null. */
  datatype FieldDef = FieldDef(name: string, ftype: Value, localize: Value, options: Value, acl: Value)

  datatype CollectionDef = CollectionDef(name: string, fields: seq<FieldDef>)

  /** The `collections` module, seen from the controller: the definitions
      (`exists`, `collection`), the capability check of the current user
      (`hasaccess(name, action)`), and the store calls `find`, `count` and
      `save`, whose results are inputs of the model. */
  datatype Collections = Collections(
    defs: map<string, CollectionDef>,
    hasAccess: (string, string) -> bool,
    find: (string, map<string, Value>) -> seq<Value>,
    count: (string, Value) -> nat,
    save: (string, Value) -> Value)

  const Unauthorized := "Unauthorized"
  const CollectionNotFound := "Collection not found"

  // ===========================================================================
  // _fixStringBooleanNumericValues

  /** What the loop stores for one element `$v` of the array: "true" and
      "false" become booleans, an integer string becomes its number, every
      other value (nested arrays included) is stored as it was read. */
  function CoerceScalar(v: Value): Value {
    match v
    case Str(s) =>
      if s == "true" then Bool(true)
      else if s == "false" then Bool(false)
      else if IsIntegerString(s) then Num(IntegerValue(s))
      else v
    case _ => v
  }

  /** The array `_fixStringBooleanNumericValues` returns. The recursive call
      on a nested array is overwritten by `$array[$k] = $v`, which stores the
      copy `$v` taken before the call, so only the top level is converted. */
  function Fixed(a: Value): Value {
    match a
    case Obj(m) => Obj(map k | k in m :: CoerceScalar(m[k]))
    case List(items) => List(seq(|items|, i requires 0 <= i < |items| => CoerceScalar(items[i])))
    case _ => a
  }

  method FixStringBooleanNumericValues(a: Value) returns (r: Value)
    ensures r == Fixed(a)
    decreases a
  {
    match a
    case Obj(m) =>
      var cur := m;
      var todo := m.Keys;
      while todo != {}
        invariant todo <= m.Keys && cur.Keys == m.Keys
        invariant forall k :: k in todo ==> cur[k] == m[k]
        invariant forall k :: k in m && k !in todo ==> cur[k] == CoerceScalar(m[k])
        decreases todo
      {
        var k :| k in todo;
        var v := m[k];
        if IsArray(cur[k]) {
          assert cur[k] == m[k];
          var nested := FixStringBooleanNumericValues(cur[k]);
          cur := cur[k := nested];
        }
        cur := cur[k := CoerceScalar(v)];
        todo := todo - {k};
      }
      r := Obj(cur);
    case List(items) =>
      var cur := items;
      for i := 0 to |items|
        invariant |cur| == |items|
        invariant forall j :: 0 <= j < i ==> cur[j] == CoerceScalar(items[j])
        invariant forall j :: i <= j < |items| ==> cur[j] == items[j]
      {
        var v := items[i];
        if IsArray(cur[i]) {
          var nested := FixStringBooleanNumericValues(cur[i]);
          cur := cur[i := nested];
        }
        cur := cur[i := CoerceScalar(v)];
      }
      r := List(cur);
    case _ =>
      r := a;
  }

  /** A value that is not an array is returned unchanged. */
  lemma FixedNonArray(a: Value)
    requires !IsArray(a)
    ensures Fixed(a) == a
  {
  }

  /** The conversion keeps the array's keys and reads, key by key, as the
      conversion of the element. */
  lemma FixedPerKey(a: Value)
    ensures a.Obj? ==> Fixed(a).Obj? && Fixed(a).fields.Keys == a.fields.Keys
    ensures a.List? ==> Fixed(a).List? && |Fixed(a).items| == |a.items|
    ensures forall k :: Get(Fixed(a), k) == CoerceScalar(Get(a, k))
  {
  }

  /** Top-level strings "true"/"false" become booleans, integer strings become
      numbers; any other element, a nested array in particular, comes back
      identical. */
  lemma FixedElement(a: Value, k: string)
    ensures Get(a, k) == Str("true") ==> Get(Fixed(a), k) == Bool(true)
    ensures Get(a, k) == Str("false") ==> Get(Fixed(a), k) == Bool(false)
    ensures Get(a, k).Str? && Get(a, k).s != "true" && Get(a, k).s != "false" && IsIntegerString(Get(a, k).s)
            ==> Get(Fixed(a), k) == Num(IntegerValue(Get(a, k).s))
    ensures IsArray(Get(a, k)) ==> Get(Fixed(a), k) == Get(a, k)
    ensures !Get(a, k).Str? ==> Get(Fixed(a), k) == Get(a, k)
  {
    FixedPerKey(a);
  }

  /** Converting twice converts no further. */
  lemma FixedIdempotent(a: Value)
    ensures Fixed(Fixed(a)) == Fixed(a)
  {
    match a
    case Obj(m) =>
      assert Fixed(Fixed(a)).fields == Fixed(a).fields;
    case List(items) =>
      assert Fixed(Fixed(a)).items == Fixed(a).items;
    case _ =>
  }

  /** The conversion keeps PHP truthiness (it keeps the number of elements). */
  lemma FixedTruthy(a: Value)
    ensures Truthy(Fixed(a)) == Truthy(a)
  {
    if a.Obj? {
      assert Fixed(a).fields.Keys == a.fields.Keys;
    }
  }

  /** The conversion the recursive call is evidently there for: nested
      arrays are converted too, at every depth. */
  function FixedDeep(a: Value): Value
    decreases a
  {
    match a
    case Obj(m) => Obj(map k | k in m :: if IsArray(m[k]) then FixedDeep(m[k]) else CoerceScalar(m[k]))
    case List(items) =>
      List(seq(|items|, i requires 0 <= i < |items| =>
        if IsArray(items[i]) then FixedDeep(items[i]) else CoerceScalar(items[i])))
    case _ => a
  }

  /** The deep conversion agrees with the top-level one on every element
      that is not an array, and converts each nested array in turn. */
  lemma FixedDeepPerKey(a: Value, k: string)
    ensures !IsArray(Get(a, k)) ==> Get(FixedDeep(a), k) == Get(Fixed(a), k)
    ensures IsArray(Get(a, k)) ==> Get(FixedDeep(a), k) == FixedDeep(Get(a, k))
  {
    FixedPerKey(a);
  }

  /** No string left anywhere in `v`, at any depth, that the conversion
      would still turn into a boolean or a number. */
  predicate Settled(v: Value)
    decreases v
  {
    match v
    case Obj(m) => forall k :: k in m ==> Settled(m[k])
    case List(items) => forall i :: 0 <= i < |items| ==> Settled(items[i])
    case Str(s) => s != "true" && s != "false" && !IsIntegerString(s)
    case _ => true
  }

  /** After the deep conversion nothing is left to convert, at any depth. */
  lemma {:induction false} FixedDeepSettles(a: Value)
    requires IsArray(a)
    ensures Settled(FixedDeep(a))
    decreases a
  {
    match a
    case Obj(m) =>
      forall k | k in m ensures Settled(FixedDeep(a).fields[k]) {
        if IsArray(m[k]) { FixedDeepSettles(m[k]); } else { CoerceScalarSettles(m[k]); }
      }
    case List(items) =>
      forall i | 0 <= i < |items| ensures Settled(FixedDeep(a).items[i]) {
        if IsArray(items[i]) { FixedDeepSettles(items[i]); } else { CoerceScalarSettles(items[i]); }
      }
  }

  lemma CoerceScalarSettles(v: Value)
    requires !IsArray(v)
    ensures Settled(CoerceScalar(v))
  {
  }

  /** A "true" nested one level down: `_fixStringBooleanNumericValues` leaves
      it a string, the deep conversion makes it a boolean. */
  lemma NestedStringNotConverted()
    ensures var a := Obj(map["published" := Obj(map["$eq" := Str("true")])]);
            && Get(Get(Fixed(a), "published"), "$eq") == Str("true")
            && Get(Get(FixedDeep(a), "published"), "$eq") == Bool(true)
            && !Settled(Fixed(a)) && Settled(FixedDeep(a))
  {
    var a := Obj(map["published" := Obj(map["$eq" := Str("true")])]);
    FixedDeepSettles(a);
    FixedDeepPerKey(a, "published");
    FixedDeepPerKey(Get(a, "published"), "$eq");
    FixedElement(a, "published");
  }

  // ===========================================================================
  // get: the options handed to find

  /** `$options["sort"][$key] = intval($value)` for every element of `$sort`;
      a sort that is not an array is not iterated. */
  function SortCoerced(sort: Value): Value {
    match sort
    case Obj(m) => Obj(map k | k in m :: Num(IntVal(m[k])))
    case List(items) => List(seq(|items|, i requires 0 <= i < |items| => Num(IntVal(items[i]))))
    case _ => sort
  }

  method CoerceSort(sort: Value) returns (r: Value)
    ensures r == SortCoerced(sort)
  {
    r := sort;
    match sort
    case Obj(m) =>
      var cur := m;
      var todo := m.Keys;
      while todo != {}
        invariant todo <= m.Keys && cur.Keys == m.Keys
        invariant forall k :: k in m && k !in todo ==> cur[k] == Num(IntVal(m[k]))
        decreases todo
      {
        var k :| k in todo;
        cur := cur[k := Num(IntVal(m[k]))];
        todo := todo - {k};
      }
      r := Obj(cur);
    case List(items) =>
      var cur := items;
      for i := 0 to |items|
        invariant |cur| == |items|
        invariant forall j :: 0 <= j < i ==> cur[j] == Num(IntVal(items[j]))
      {
        cur := cur[i := Num(IntVal(items[i]))];
      }
      r := List(cur);
    case _ =>
  }

  /** After the coercion every sort direction is an integer and the sort keys
      are those of the request. */
  lemma SortCoercedIsNumeric(sort: Value)
    ensures IsArray(sort) ==> forall k :: Isset(sort, k) ==> Get(SortCoerced(sort), k) == Num(IntVal(Get(sort, k)))
    ensures sort.Obj? ==> SortCoerced(sort).Obj? && SortCoerced(sort).fields.Keys == sort.fields.Keys &&
                          forall k :: k in sort.fields ==> SortCoerced(sort).fields[k] == Num(IntVal(sort.fields[k]))
    ensures sort.List? ==> SortCoerced(sort).List? && |SortCoerced(sort).items| == |sort.items| &&
                           forall i :: 0 <= i < |sort.items| ==> SortCoerced(sort).items[i] == Num(IntVal(sort.items[i]))
    ensures !IsArray(sort) ==> SortCoerced(sort) == sort
  {
  }

  /** `$fieldsFilter` once `lang`, `ignoreDefaultFallback` and the user are
      added to the `fieldsFilter` parameter. */
  function FieldsFilter(req: Request, user: Value): Value {
    var ff0 := Param(req, "fieldsFilter", List([]));
    var lang := Param(req, "lang", Bool(false));
    var ignore := Param(req, "ignoreDefaultFallback", Bool(false));
    var ff1 := if Truthy(lang) then SetKey(ff0, "lang", lang) else ff0;
    var ff2 := if Truthy(ignore) then SetKey(ff1, "ignoreDefaultFallback", ignore) else ff1;
    if Truthy(user) then SetKey(ff2, "user", user) else ff2
  }

  /** What `get` puts under an option copied from the parameter of the same
      name, if anything. Each is present exactly when its parameter is
      truthy. A filter or a field list sent in the query string goes through
      the string conversion; limit and skip are converted with `intval`;
      every sort direction becomes an integer. */
  function ParamOption(req: Request, key: string): Option<Value> {
    var given := Param(req, key, Null);
    if !Truthy(given) then None
    else if key == "filter" || key == "fields" then
      Some(if key in req.query then Fixed(given) else given)
    else if key == "limit" || key == "skip" then Some(Num(IntVal(given)))
    else if key == "sort" then Some(SortCoerced(given))
    else if key == "populate" then Some(given)
    else None
  }

  /** The fields filter is present when its parameter is truthy, and is
      replaced by the extended filter once that holds a language, the
      fallback flag or the user. */
  function FieldsFilterOption(req: Request, user: Value): Option<Value> {
    var ff := FieldsFilter(req, user);
    if IsArray(ff) && Count(ff) > 0 then Some(ff)
    else if Truthy(Param(req, "fieldsFilter", List([]))) then Some(Param(req, "fieldsFilter", List([])))
    else None
  }

  predicate ParamAgrees(req: Request, options: map<string, Value>, key: string) {
    (key in options <==> ParamOption(req, key).Some?) &&
    (key in options ==> options[key] == ParamOption(req, key).value)
  }

  predicate FieldsFilterAgrees(req: Request, user: Value, options: map<string, Value>) {
    ("fieldsFilter" in options <==> FieldsFilterOption(req, user).Some?) &&
    ("fieldsFilter" in options ==> options["fieldsFilter"] == FieldsFilterOption(req, user).value)
  }

  /** The options `get` hands to `find`: the seven documented options, each
      present and valued as described above, and nothing else. */
  predicate GetOptionsSpec(req: Request, user: Value, options: map<string, Value>) {
    && ParamAgrees(req, options, "filter") && ParamAgrees(req, options, "fields")
    && ParamAgrees(req, options, "limit") && ParamAgrees(req, options, "skip")
    && ParamAgrees(req, options, "sort") && ParamAgrees(req, options, "populate")
    && FieldsFilterAgrees(req, user, options)
    && forall key :: key in options ==>
         key == "filter" || key == "fields" || key == "limit" || key == "skip" ||
         key == "sort" || key == "populate" || key == "fieldsFilter"
  }

  /** With a logged-in user the fields filter carries the user record,
      unless the `fieldsFilter` parameter is a scalar PHP cannot write into. */
  lemma FieldsFilterCarriesUser(req: Request, user: Value)
    requires Truthy(user) && Writable(Param(req, "fieldsFilter", List([])))
    ensures FieldsFilterOption(req, user).Some?
    ensures Get(FieldsFilterOption(req, user).value, "user") == user
  {
    var ff0 := Param(req, "fieldsFilter", List([]));
    var lang := Param(req, "lang", Bool(false));
    var ignore := Param(req, "ignoreDefaultFallback", Bool(false));
    var ff1 := if Truthy(lang) then SetKey(ff0, "lang", lang) else ff0;
    var ff2 := if Truthy(ignore) then SetKey(ff1, "ignoreDefaultFallback", ignore) else ff1;
    assert Writable(ff1) && Writable(ff2);
    var ff := SetKey(ff2, "user", user);
    assert "user" in ff.fields;
  }

  /** The option a request parameter is copied into unchanged, when truthy. */
  predicate CopiedOption(req: Request, options: map<string, Value>, key: string) {
    (key in options <==> Truthy(Param(req, key, Null))) &&
    (key in options ==> options[key] == Param(req, key, Null))
  }

  /** The six assignments of `get` that copy request parameters into
      `$options`. */
  method CopyParams(req: Request) returns (options: map<string, Value>)
    ensures CopiedOption(req, options, "filter") && CopiedOption(req, options, "fields")
    ensures CopiedOption(req, options, "sort") && CopiedOption(req, options, "populate")
    ensures ParamAgrees(req, options, "limit") && ParamAgrees(req, options, "skip")
    ensures forall key :: key in options ==>
              key == "filter" || key == "fields" || key == "limit" || key == "skip" || key == "populate" || key == "sort"
  {
    var first := CopyFilterLimitSort(req);
    options := CopyFieldsSkipPopulate(req, first);
  }

  /** The first three of those assignments: filter, limit and sort. */
  method CopyFilterLimitSort(req: Request) returns (options: map<string, Value>)
    ensures CopiedOption(req, options, "filter") && CopiedOption(req, options, "sort")
    ensures ParamAgrees(req, options, "limit")
    ensures forall key :: key in options ==> key == "filter" || key == "limit" || key == "sort"
  {
    options := map[];
    var filter := Param(req, "filter", Null);
    if Truthy(filter) { options := options["filter" := filter]; }
    var limit := Param(req, "limit", Null);
    if Truthy(limit) { options := options["limit" := Num(IntVal(limit))]; }
    var sort := Param(req, "sort", Null);
    if Truthy(sort) { options := options["sort" := sort]; }
  }

  /** The last three: fields, skip and populate, added to what is there. */
  method CopyFieldsSkipPopulate(req: Request, given: map<string, Value>) returns (options: map<string, Value>)
    requires "fields" !in given && "skip" !in given && "populate" !in given
    ensures CopiedOption(req, options, "fields") && CopiedOption(req, options, "populate")
    ensures ParamAgrees(req, options, "skip")
    ensures forall key :: key != "fields" && key != "skip" && key != "populate" ==>
              (key in options <==> key in given) && (key in options ==> options[key] == given[key])
    ensures forall key :: key in options ==> key in given || key == "fields" || key == "skip" || key == "populate"
  {
    options := given;
    var fields := Param(req, "fields", Null);
    if Truthy(fields) { options := options["fields" := fields]; }
    var skip := Param(req, "skip", Null);
    if Truthy(skip) { options := options["skip" := Num(IntVal(skip))]; }
    var populate := Param(req, "populate", Null);
    if Truthy(populate) { options := options["populate" := populate]; }
  }

  /** The copied parameters, with the string conversion of a query-string
      filter and field list. Also returns `$filter`, which the conversion
      changed in place (it is passed by reference) and which the count of
      `total` uses. */
  method ParamOptions(req: Request) returns (options: map<string, Value>, filter: Value)
    ensures ParamAgrees(req, options, "filter") && ParamAgrees(req, options, "fields")
    ensures ParamAgrees(req, options, "limit") && ParamAgrees(req, options, "skip")
    ensures ParamAgrees(req, options, "populate") && CopiedOption(req, options, "sort")
    ensures forall key :: key in options ==>
              key == "filter" || key == "fields" || key == "limit" || key == "skip" || key == "populate" || key == "sort"
    ensures filter == if Truthy(Param(req, "filter", Null)) && "filter" in req.query
                      then Fixed(Param(req, "filter", Null)) else Param(req, "filter", Null)
  {
    options := CopyParams(req);
    filter := Param(req, "filter", Null);
    var fields := Param(req, "fields", Null);
    if Truthy(filter) && "filter" in req.query {
      filter := FixStringBooleanNumericValues(filter);
      options := options["filter" := filter];
    }
    if Truthy(fields) && "fields" in req.query {
      fields := FixStringBooleanNumericValues(fields);
      options := options["fields" := fields];
    }
  }

  /** The assignments of `get` that build and add the fields filter. */
  method AddFieldsFilter(req: Request, user: Value, given: map<string, Value>) returns (options: map<string, Value>)
    requires "fieldsFilter" !in given
    ensures FieldsFilterAgrees(req, user, options)
    ensures forall key :: key != "fieldsFilter" ==> (key in options <==> key in given)
    ensures forall key :: key != "fieldsFilter" && key in options ==> options[key] == given[key]
  {
    options := given;
    var fieldsFilter := Param(req, "fieldsFilter", List([]));
    if Truthy(fieldsFilter) { options := options["fieldsFilter" := fieldsFilter]; }
    var lang := Param(req, "lang", Bool(false));
    if Truthy(lang) { fieldsFilter := SetKey(fieldsFilter, "lang", lang); }
    var ignore := Param(req, "ignoreDefaultFallback", Bool(false));
    if Truthy(ignore) { fieldsFilter := SetKey(fieldsFilter, "ignoreDefaultFallback", ignore); }
    if Truthy(user) { fieldsFilter := SetKey(fieldsFilter, "user", user); }
    if IsArray(fieldsFilter) && Count(fieldsFilter) > 0 {
      options := options["fieldsFilter" := fieldsFilter];
    }
    assert fieldsFilter == FieldsFilter(req, user);
  }

  /** The assignments of `get` that build `$options`. */
  method BuildGetOptions(req: Request, user: Value) returns (options: map<string, Value>, filter: Value)
    ensures GetOptionsSpec(req, user, options)
    ensures filter == if Truthy(Param(req, "filter", Null)) && "filter" in req.query
                      then Fixed(Param(req, "filter", Null)) else Param(req, "filter", Null)
  {
    var copied;
    copied, filter := ParamOptions(req);
    options := AddFieldsFilter(req, user, copied);
    options := CoerceSortOption(req, options);
  }

  /** The last step of `get`'s options: a sort that was given has each of
      its values made an integer. */
  method CoerceSortOption(req: Request, given: map<string, Value>) returns (options: map<string, Value>)
    requires CopiedOption(req, given, "sort")
    ensures ParamAgrees(req, options, "sort")
    ensures forall key :: key != "sort" ==> (key in options <==> key in given)
    ensures forall key :: key != "sort" && key in options ==> options[key] == given[key]
  {
    options := given;
    if "sort" in options {
      var sort := Param(req, "sort", Null);
      var coerced := CoerceSort(sort);
      options := options["sort" := coerced];
    }
  }

  // ===========================================================================
  // get: the field listing

  /** A field is listed when there is no user, when its `acl` is not a
      non-empty array, or when the `acl` names the user's `_id` or `group`. */
  predicate Visible(f: FieldDef, user: Value) {
    || !Truthy(user)
    || !IsArray(f.acl) || Count(f.acl) == 0
    || InArray(Get(user, "_id"), f.acl) || InArray(Get(user, "group"), f.acl)
  }

  /** The entry of `$fields` for one field: its name, type, localize flag and
      options, nothing else. */
  function Describe(f: FieldDef): Value {
    Obj(map["name" := Str(f.name), "type" := f.ftype, "localize" := f.localize, "options" := f.options])
  }

  /** A listed entry has exactly the four keys of a field description. */
  lemma DescribeKeys(f: FieldDef)
    ensures Describe(f).Obj? && Describe(f).fields.Keys == {"name", "type", "localize", "options"}
  {
  }

  /** `$fields` after the loop over the first fields of the definition. */
  function FieldListing(defs: seq<FieldDef>, user: Value): map<string, Value> {
    if defs == [] then map[]
    else
      var m := FieldListing(defs[..|defs| - 1], user);
      var f := defs[|defs| - 1];
      if Visible(f, user) then m[f.name := Describe(f)] else m
  }

  /** `defs[i]` is the last visible field named `k`. */
  predicate LastVisible(defs: seq<FieldDef>, user: Value, k: string, i: int) {
    && 0 <= i < |defs| && defs[i].name == k && Visible(defs[i], user)
    && forall j :: i < j < |defs| ==> !(defs[j].name == k && Visible(defs[j], user))
  }

  /** A field name is listed iff some field of that name is visible. */
  lemma {:induction false} FieldListedIff(defs: seq<FieldDef>, user: Value, k: string)
    ensures k in FieldListing(defs, user) <==>
              exists i :: 0 <= i < |defs| && defs[i].name == k && Visible(defs[i], user)
  {
    if defs != [] {
      var n := |defs| - 1;
      var init := defs[..n];
      FieldListedIff(init, user, k);
      if !(defs[n].name == k && Visible(defs[n], user)) {
        if exists i :: 0 <= i < |defs| && defs[i].name == k && Visible(defs[i], user) {
          var i :| 0 <= i < |defs| && defs[i].name == k && Visible(defs[i], user);
          assert init[i] == defs[i];
        }
        if k in FieldListing(init, user) {
          var i :| 0 <= i < |init| && init[i].name == k && Visible(init[i], user);
          assert init[i] == defs[i];
        }
      }
    }
  }

  /** The last visible field of a name stays the last one when a field that
      is not a visible field of that name follows. */
  lemma LastVisibleExtends(defs: seq<FieldDef>, user: Value, k: string, i: int)
    requires |defs| > 0 && LastVisible(defs[..|defs| - 1], user, k, i)
    requires !(defs[|defs| - 1].name == k && Visible(defs[|defs| - 1], user))
    ensures LastVisible(defs, user, k, i)
  {
    var init := defs[..|defs| - 1];
    forall j | i < j < |defs|
      ensures !(defs[j].name == k && Visible(defs[j], user))
    {
      if j < |defs| - 1 {
        assert defs[j] == init[j];
      }
    }
  }

  /** The entry of a listed name describes the last visible field of that
      name: a later field of the same name replaces an earlier one. */
  lemma {:induction false} FieldListedLast(defs: seq<FieldDef>, user: Value, k: string)
    requires k in FieldListing(defs, user)
    ensures exists i :: LastVisible(defs, user, k, i) && FieldListing(defs, user)[k] == Describe(defs[i])
  {
    var n := |defs| - 1;
    var init := defs[..n];
    if defs[n].name == k && Visible(defs[n], user) {
      assert LastVisible(defs, user, k, n);
    } else {
      assert k in FieldListing(init, user) && FieldListing(defs, user)[k] == FieldListing(init, user)[k];
      FieldListedLast(init, user, k);
      var i :| LastVisible(init, user, k, i) && FieldListing(init, user)[k] == Describe(init[i]);
      assert defs[i] == init[i];
      LastVisibleExtends(defs, user, k, i);
    }
  }

  /** The `foreach ($collection['fields'] as $field)` loop of `get`. */
  method VisibleFields(defs: seq<FieldDef>, user: Value) returns (fields: map<string, Value>)
    ensures fields == FieldListing(defs, user)
  {
    fields := map[];
    for i := 0 to |defs|
      invariant fields == FieldListing(defs[..i], user)
    {
      var f := defs[i];
      assert defs[..i + 1][..i] == defs[..i];
      if Truthy(user) && IsArray(f.acl) && Count(f.acl) > 0 &&
         !(InArray(Get(user, "_id"), f.acl) || InArray(Get(user, "group"), f.acl)) {
        continue;
      }
      fields := fields[f.name := Describe(f)];
    }
    assert defs[..|defs|] == defs;
  }

  // ===========================================================================
  // get

  /** The filter the separate count of `total` uses: `$filter ? $filter : []`. */
  function CountFilter(req: Request): Value {
    var filter := Param(req, "filter", Null);
    if !Truthy(filter) then List([])
    else if "filter" in req.query then Fixed(filter)
    else filter
  }

  /** `get` passes its checks: a collection name, an existing collection, and
      `entries_view` for a logged-in user. */
  predicate GetAllowed(route: string, user: Value, c: Collections) {
    Truthy(Str(route)) && route in c.defs && (!Truthy(user) || c.hasAccess(c.defs[route].name, "entries_view"))
  }

  method GetEntries(route: string, req: Request, user: Value, c: Collections)
    returns (response: Response, options: map<string, Value>)
    ensures !Truthy(Str(route)) ==> response == Stop(412, Error("Missing collection name"))
    ensures Truthy(Str(route)) && route !in c.defs ==> response == Stop(412, Error(CollectionNotFound))
    ensures Truthy(Str(route)) && route in c.defs && Truthy(user) && !c.hasAccess(c.defs[route].name, "entries_view")
            ==> response == Stop(401, Error(Unauthorized))
    ensures GetAllowed(route, user, c) ==>
              var def := c.defs[route];
              var entries := c.find(def.name, options);
              var paged := Truthy(Param(req, "skip", Null)) || Truthy(Param(req, "limit", Null));
              && GetOptionsSpec(req, user, options)
              && if Truthy(Param(req, "simple", Bool(false))) then response == Ok(List(entries))
                 else response == Ok(Obj(map[
                   "fields" := Obj(FieldListing(def.fields, user)),
                   "entries" := List(entries),
                   "total" := Num(if paged then c.count(def.name, CountFilter(req)) else |entries|)]))
  {
    options := map[];
    if !Truthy(Str(route)) {
      return Stop(412, Error("Missing collection name")), options;
    }
    if route !in c.defs {
      return Stop(412, Error(CollectionNotFound)), options;
    }
    var def := c.defs[route];
    if Truthy(user) && !c.hasAccess(def.name, "entries_view") {
      return Stop(401, Error(Unauthorized)), options;
    }
    var filter;
    options, filter := BuildGetOptions(req, user);
    var entries := c.find(def.name, options);
    if Truthy(Param(req, "simple", Bool(false))) {
      return Ok(List(entries)), options;
    }
    var fields := VisibleFields(def.fields, user);
    FixedTruthy(Param(req, "filter", Null));
    var total := PageTotal(Param(req, "skip", Null), Param(req, "limit", Null), |entries|,
                           c.count(def.name, if Truthy(filter) then filter else List([])));
    response := Ok(Obj(map["fields" := Obj(fields), "entries" := List(entries), "total" := Num(total)]));
  }

  // ===========================================================================
  // save

  /** The capability `save` asks for: editing when the entry has an id,
      creating otherwise. */
  function SaveCapability(data: Value): string {
    if Isset(data, "_id") then "entries_edit" else "entries_create"
  }

  function SaveEntry(route: string, req: Request, user: Value, c: Collections): (out: Outcome)
    ensures out.mails == []
    ensures !Truthy(Str(route)) || !Truthy(Param(req, "data", Null)) ==> out == Reply(Ok(Bool(false)))
    ensures out.writes != [] <==>
              Truthy(Str(route)) && Truthy(Param(req, "data", Null)) && route in c.defs &&
              (!Truthy(user) || c.hasAccess(route, SaveCapability(Param(req, "data", Null))))
    ensures out.writes != [] ==>
              var stamped := SetKey(Param(req, "data", Null), "_by", Get(user, "_id"));
              out.writes == [Save(route, stamped)] && out.response == Ok(c.save(route, stamped))
    ensures out.writes == [] && Truthy(Str(route)) && Truthy(Param(req, "data", Null)) ==>
              out.response == if route !in c.defs then Stop(412, Error(CollectionNotFound))
                              else Stop(401, Error(Unauthorized))
  {
    var data := Param(req, "data", Null);
    if !Truthy(Str(route)) || !Truthy(data) then Reply(Ok(Bool(false)))
    else if route !in c.defs then Fail(412, CollectionNotFound)
    else if Truthy(user) && !c.hasAccess(route, SaveCapability(data)) then Fail(401, Unauthorized)
    else
      var stamped := SetKey(data, "_by", Get(user, "_id"));
      Outcome(Ok(c.save(route, stamped)), [Save(route, stamped)], [])
  }

  /** A saved array entry carries the id of the acting user (null without
      one) in `_by`, and every other key as the request sent it. */
  lemma SaveStampsBy(route: string, req: Request, user: Value, c: Collections)
    requires SaveEntry(route, req, user, c).writes != []
    requires IsArray(Param(req, "data", Null))
    ensures var doc := SaveEntry(route, req, user, c).writes[0].doc;
            && Get(doc, "_by") == Get(user, "_id")
            && forall k :: k != "_by" ==> Get(doc, k) == Get(Param(req, "data", Null), k)
  {
  }

  // ===========================================================================
  // remove

  /** The single-item narrowing of `remove`: a string is an id; a filter that
      sets `_id` keeps only `_id`; any other filter is used as it is. */
  function NarrowFilter(filter: Value): Value {
    if filter.Str? then Obj(map["_id" := filter])
    else if Isset(filter, "_id") then Obj(map["_id" := Get(filter, "_id")])
    else filter
  }

  lemma NarrowFilterSpec(filter: Value)
    ensures filter.Str? ==> NarrowFilter(filter) == Obj(map["_id" := filter])
    ensures Isset(filter, "_id") ==>
              NarrowFilter(filter).Obj? && NarrowFilter(filter).fields.Keys == {"_id"} &&
              Get(NarrowFilter(filter), "_id") == Get(filter, "_id")
    ensures !filter.Str? && !Isset(filter, "_id") ==> NarrowFilter(filter) == filter
  {
  }

  lemma NarrowFilterIdempotent(filter: Value)
    ensures NarrowFilter(NarrowFilter(filter)) == NarrowFilter(filter)
  {
  }

  /** Keys beside `_id` make no difference to what is removed. */
  lemma NarrowFilterIgnoresOtherKeys(f1: Value, f2: Value)
    requires Isset(f1, "_id") && Get(f1, "_id") == Get(f2, "_id")
    ensures NarrowFilter(f1) == NarrowFilter(f2)
  {
  }

  const MissingRemoveArgs := "Please provide a collection name and filter"

  function RemoveEntries(route: string, req: Request, user: Value, c: Collections): (out: Outcome)
    ensures out.mails == []
    ensures out.response.Stop? <==> out.writes == []
    ensures !Truthy(Str(route)) || !Truthy(Param(req, "filter", Null)) ==>
              out == Fail(417, MissingRemoveArgs)
    ensures Truthy(Str(route)) && Truthy(Param(req, "filter", Null)) && route !in c.defs ==>
              out == Fail(412, CollectionNotFound)
    ensures Truthy(Str(route)) && Truthy(Param(req, "filter", Null)) && route in c.defs &&
            Truthy(user) && !c.hasAccess(route, "entries_delete") ==>
              out == Fail(401, Unauthorized)
    ensures Truthy(Str(route)) && Truthy(Param(req, "filter", Null)) && route in c.defs &&
            (!Truthy(user) || c.hasAccess(route, "entries_delete")) ==>
              out.writes == [Remove(route, NarrowFilter(Param(req, "filter", Null)))]
    ensures out.writes != [] ==>
              var filter := NarrowFilter(Param(req, "filter", Null));
              var count := Param(req, "count", Bool(false));
              && out.writes == [Remove(route, filter)]
              && out.response == Ok(Obj(map["success" := Bool(true),
                                            "count" := if Truthy(count) then Num(c.count(route, filter)) else count]))
  {
    var filter := Param(req, "filter", Null);
    var count := Param(req, "count", Bool(false));
    if !Truthy(Str(route)) || !Truthy(filter) then Fail(417, MissingRemoveArgs)
    else
      var narrowed := NarrowFilter(filter);
      if route !in c.defs then Fail(412, CollectionNotFound)
      else if Truthy(user) && !c.hasAccess(route, "entries_delete") then Fail(401, Unauthorized)
      else
        var counted := if Truthy(count) then Num(c.count(route, narrowed)) else count;
        Outcome(Ok(Obj(map["success" := Bool(true), "count" := counted])), [Remove(route, narrowed)], [])
  }

  /** A filter holding `_id` among other keys removes exactly what the filter
      holding only that `_id` removes, with the same response. */
  lemma RemoveIgnoresExtraKeys(route: string, req: Request, user: Value, c: Collections)
    requires "filter" in req.params && Isset(req.params["filter"], "_id")
    ensures var only := Obj(map["_id" := Get(req.params["filter"], "_id")]);
            RemoveEntries(route, req, user, c) ==
            RemoveEntries(route, req.(params := req.params["filter" := only]), user, c)
  {
    var f := req.params["filter"];
    var only := Obj(map["_id" := Get(f, "_id")]);
    assert Truthy(f) && Truthy(only);
    NarrowFilterIgnoresOtherKeys(f, only);
  }

  // ===========================================================================
  // upload: the file name

  predicate AllowedFileChar(ch: char) {
    ('a' <= ch <= 'z') || ('A' <= ch <= 'Z') || ('0' <= ch <= '9') || ch == '-' || ch == '_' || ch == '.'
  }

  /** `str_replace(' ', '-', $name)`. */
  function SpacesToDashes(s: string): string {
    if s == [] then [] else [if s[0] == ' ' then '-' else s[0]] + SpacesToDashes(s[1..])
  }

  /** `preg_replace('/[^a-zA-Z0-9-_\.]/', '', $s)`. */
  function DropDisallowed(s: string): string {
    if s == [] then [] else (if AllowedFileChar(s[0]) then [s[0]] else []) + DropDisallowed(s[1..])
  }

  /** The name an uploaded file is stored under. */
  function SanitizeFileName(name: string): string {
    DropDisallowed(SpacesToDashes(name))
  }

  lemma {:induction false} SpacesToDashesDistributes(a: string, b: string)
    ensures SpacesToDashes(a + b) == SpacesToDashes(a) + SpacesToDashes(b)
  {
    if a == [] {
      assert a + b == b;
    } else {
      assert (a + b)[0] == a[0];
      assert (a + b)[1..] == a[1..] + b;
      SpacesToDashesDistributes(a[1..], b);
    }
  }

  lemma {:induction false} DropDisallowedDistributes(a: string, b: string)
    ensures DropDisallowed(a + b) == DropDisallowed(a) + DropDisallowed(b)
  {
    if a == [] {
      assert a + b == b;
    } else {
      var head := if AllowedFileChar(a[0]) then [a[0]] else [];
      assert (a + b)[0] == a[0];
      assert (a + b)[1..] == a[1..] + b;
      assert DropDisallowed(a + b) == head + DropDisallowed(a[1..] + b);
      DropDisallowedDistributes(a[1..], b);
      assert head + (DropDisallowed(a[1..]) + DropDisallowed(b)) == (head + DropDisallowed(a[1..])) + DropDisallowed(b);
    }
  }

  /** The file name is sanitised character by character. */
  lemma SanitizeDistributes(a: string, b: string)
    ensures SanitizeFileName(a + b) == SanitizeFileName(a) + SanitizeFileName(b)
  {
    SpacesToDashesDistributes(a, b);
    DropDisallowedDistributes(SpacesToDashes(a), SpacesToDashes(b));
  }

  /** Only letters, digits, '-', '_' and '.' remain, and the name gets no
      longer; it keeps its length exactly when it is made of those characters
      and spaces. */
  lemma {:induction false} SanitizeFileNameSpec(name: string)
    ensures forall i :: 0 <= i < |SanitizeFileName(name)| ==> AllowedFileChar(SanitizeFileName(name)[i])
    ensures |SanitizeFileName(name)| <= |name|
    ensures |SanitizeFileName(name)| == |name| <==> forall i :: 0 <= i < |name| ==> AllowedFileChar(name[i]) || name[i] == ' '
  {
    if name != [] {
      SanitizeFileNameSpec(name[1..]);
      SanitizeDistributes([name[0]], name[1..]);
      assert name == [name[0]] + name[1..];
      if !(AllowedFileChar(name[0]) || name[0] == ' ') {
        assert |SanitizeFileName(name)| < |name|;
      }
      if forall i :: 0 <= i < |name| ==> AllowedFileChar(name[i]) || name[i] == ' ' {
        assert forall i :: 0 <= i < |name[1..]| ==> name[1..][i] == name[i + 1];
      } else if AllowedFileChar(name[0]) || name[0] == ' ' {
        var i :| 0 <= i < |name| && !(AllowedFileChar(name[i]) || name[i] == ' ');
        assert name[1..][i - 1] == name[i];
      }
    }
  }

  /** Every space becomes a dash: a name split at a space is sanitised to the
      sanitised parts joined by '-'. */
  lemma SanitizeSpace(a: string, b: string)
    ensures SanitizeFileName(a + " " + b) == SanitizeFileName(a) + "-" + SanitizeFileName(b)
  {
    SanitizeDistributes(a + " ", b);
    SanitizeDistributes(a, " ");
  }

  /** A name made only of allowed characters is kept as it is. */
  lemma {:induction false} SanitizeKeepsAllowed(name: string)
    requires forall i :: 0 <= i < |name| ==> AllowedFileChar(name[i])
    ensures SanitizeFileName(name) == name
  {
    if name != [] {
      assert forall i :: 0 <= i < |name[1..]| ==> name[1..][i] == name[i + 1];
      SanitizeKeepsAllowed(name[1..]);
    }
  }

  lemma SanitizeIdempotent(name: string)
    ensures SanitizeFileName(SanitizeFileName(name)) == SanitizeFileName(name)
  {
    SanitizeFileNameSpec(name);
    SanitizeKeepsAllowed(SanitizeFileName(name));
  }

  // ===========================================================================
  // upload: the discussion

  /** What `upload` reads besides the request and the `collections` module. */
  datatype UploadEnv = UploadEnv(
    discussionsDir: string,           // $this->app->path('#discussions:')
    moved: bool,                      // move_uploaded_file succeeded
    siteRelative: string -> string,   // the target path without the site directory
    width: Value,                     // getimagesize(...)[0]
    now: int,                         // time()
    templates: string -> string,      // file_get_contents of a mail template
    host: string,                     // the configured host
    api: string,                      // the configured API address
    mailSent: bool)                   // the mailer's result

  function ById(id: Value): map<string, Value> {
    map["filter" := Obj(map["_id" := id])]
  }

  /** `find("discussions", ['filter' => ["_id" => $id]])`. */
  function FoundDiscussions(req: Request, c: Collections): seq<Value> {
    c.find("discussions", ById(Param(req, "_id", Null)))
  }

  const NotYourTurn := "Sorry it's not your turn yet"
  const AlreadyCompleted := "Sorry, the discussion is already completed"

  /** The checks of `upload` in their order; the first that fails gives the
      message of its 412 response. */
  function UploadGuard(req: Request, c: Collections): Option<string> {
    var id := Param(req, "_id", Null);
    var userid := Param(req, "_userid", Null);
    if |req.files| == 0 then Some("Your request to upload is not valid")
    else if !Truthy(id) || !Truthy(userid) then Some("Missing id")
    else
      var found := FoundDiscussions(req, c);
      if |found| == 0 then Some("Sorry, we can't find your discussion.")
      else if Get(Get(found[0], "turn"), "_id") != userid then Some(NotYourTurn)
      else if Truthy(Get(found[0], "completed")) then Some(AlreadyCompleted)
      else None
  }

  /** A completed discussion takes no further upload, whoever the caller is:
      the caller who does not hold the turn hears so first. */
  lemma UploadCompletedRejected(req: Request, c: Collections)
    requires |req.files| > 0 && Truthy(Param(req, "_id", Null)) && Truthy(Param(req, "_userid", Null))
    requires |FoundDiscussions(req, c)| > 0 && Truthy(Get(FoundDiscussions(req, c)[0], "completed"))
    ensures UploadGuard(req, c) == Some(
              if Get(Get(FoundDiscussions(req, c)[0], "turn"), "_id") != Param(req, "_userid", Null)
              then NotYourTurn else AlreadyCompleted)
  {
  }

  /** Once the guards pass, the discussion is an object. */
  lemma GuardedDiscussionIsObject(req: Request, c: Collections)
    requires UploadGuard(req, c).None?
    ensures FoundDiscussions(req, c) != [] && FoundDiscussions(req, c)[0].Obj?
  {
    var d := FoundDiscussions(req, c)[0];
    assert Truthy(Get(Get(d, "turn"), "_id"));
    assert Get(d, "turn") != Null;
  }

  /** Index of the last photographer whose `_id` differs from the caller's. */
  function LastOtherIndex(authors: seq<Value>, userid: Value): (r: Option<nat>)
    ensures r.Some? ==> r.value < |authors| && Get(authors[r.value], "_id") != userid
    ensures r.Some? ==> forall j :: r.value < j < |authors| ==> Get(authors[j], "_id") == userid
    ensures r.None? ==> forall j :: 0 <= j < |authors| ==> Get(authors[j], "_id") == userid
  {
    if authors == [] then None
    else if Get(authors[|authors| - 1], "_id") != userid then Some(|authors| - 1)
    else LastOtherIndex(authors[..|authors| - 1], userid)
  }

  /** `find("photographers", ['filter' => ["_id" => $author["_id"]]])[0]`,
      null when nothing is found. */
  function LookupPhotographer(c: Collections, author: Value): Value {
    var found := c.find("photographers", ById(Get(author, "_id")));
    if |found| > 0 then found[0] else Null
  }

  /** The photographers a discussion pairs. A list is iterated in order; an
      object-shaped field is not iterated (see the README). */
  function Authors(discussion: Value): seq<Value> {
    var p := Get(discussion, "photographers");
    if p.List? then p.items else []
  }

  /** `$nextauthor` after the loop: the record of the last photographer who
      is not the caller, or null when there is none. */
  function NextAuthor(authors: seq<Value>, userid: Value, c: Collections): Value {
    match LastOtherIndex(authors, userid)
    case None => Null
    case Some(i) => LookupPhotographer(c, authors[i])
  }

  /** The `foreach ($discussion["photographers"] as $author)` loop. */
  method FindNextAuthor(authors: seq<Value>, userid: Value, c: Collections) returns (next: Value)
    ensures next == NextAuthor(authors, userid, c)
  {
    next := Null;
    for i := 0 to |authors|
      invariant next == NextAuthor(authors[..i], userid, c)
    {
      assert authors[..i + 1][..i] == authors[..i];
      if Get(authors[i], "_id") != userid {
        next := LookupPhotographer(c, authors[i]);
      }
      assert authors[..i + 1][i] == authors[i];
    }
    assert authors[..|authors|] == authors;
  }

  /** A store whose photographer lookup by id only returns records with that
      id. */
  ghost predicate LookupById(c: Collections) {
    forall id: Value, i: nat :: i < |c.find("photographers", ById(id))| ==>
      Get(c.find("photographers", ById(id))[i], "_id") == id
  }

  /** The next turn never goes back to the caller: it is null or, with a
      well-behaved lookup, an id different from the caller's. */
  lemma NextAuthorIsNotCaller(authors: seq<Value>, userid: Value, c: Collections)
    requires LookupById(c) && Truthy(userid)
    ensures Get(NextAuthor(authors, userid, c), "_id") != userid
  {
    match LastOtherIndex(authors, userid)
    case None =>
    case Some(i) =>
      var found := c.find("photographers", ById(Get(authors[i], "_id")));
      if |found| > 0 {
        assert Get(found[0], "_id") == Get(authors[i], "_id");
      }
  }

  /** The record appended to `uploads`. */
  function UploadRecord(original: string, now: int, width: Value): Value {
    Obj(map["original" := Str(original), "time" := Num(now), "width" := width])
  }

  /** The new `turn`: the next author's id and name. */
  function TurnOf(next: Value): Value {
    Obj(map["_id" := Get(next, "_id"), "display" := Get(next, "name"), "link" := Str("photographers")])
  }

  /** The `uploads` list before the append: none yet, or `false`, gives an
      empty list. */
  function PriorUploads(discussion: Value): Option<seq<Value>> {
    var u := Get(discussion, "uploads");
    if u.List? then Some(u.items)
    else if u == Null || u == Bool(false) then Some([])
    else None
  }

  const UpdatedKeys: set<string> := {"uploads", "cancelled", "continued", "completed", "turn"}

  /** The discussion `upload` saves, compared with the one it read: one more
      upload at the end, the flags of the request, the new turn, and nothing
      else changed. */
  predicate UploadedDiscussion(before: Value, after: Value, record: Value, turn: Value, req: Request) {
    && before.Obj? && after.Obj? && PriorUploads(before).Some?
    && after.fields.Keys == before.fields.Keys + UpdatedKeys
    && after.fields["uploads"] == List(PriorUploads(before).value + [record])
    && after.fields["cancelled"] == Param(req, "cancelled", Null)
    && after.fields["continued"] == Param(req, "continued", Null)
    && after.fields["completed"] == Param(req, "completed", Null)
    && after.fields["turn"] == turn
    && forall k :: k in before.fields && k !in UpdatedKeys ==> after.fields[k] == before.fields[k]
  }

  /** The last element of a list, as `end()` returns it (false for an empty
      list; null for what the model does not iterate). */
  function End(v: Value): Value {
    if v.List? then (if |v.items| > 0 then v.items[|v.items| - 1] else Bool(false)) else Null
  }

  /** The placeholders of the discussion mails. */
  function DiscussionSubstitutions(env: UploadEnv, next: Value, saved: Value): (subs: Templates.Substitutions)
    ensures Templates.WellFormed(subs)
  {
    [("{{server}}", env.host),
     ("{{name}}", ToStr(Get(next, "name"))),
     ("{{img}}", env.api + ToStr(Get(End(Get(saved, "uploads")), "original")))]
  }

  function DiscussionTemplates(completed: bool): seq<string> {
    if completed then ["discussion_completed.html", "discussion_completed_plain.html"]
    else ["discussion_new_photo.html", "discussion_new_photo_plain.html"]
  }

  function DiscussionSubject(completed: bool): string {
    if completed then "Your discussion is completed !!" else "New photo in your discussion"
  }

  /** Where the uploaded file is moved: the discussion's folder and the
      sanitised file name. */
  function TargetPath(env: UploadEnv, discussion: Value, req: Request): string {
    var name := if "file" in req.files then req.files["file"].name else "";
    env.discussionsDir + "_" + ToStr(Get(discussion, "name_slug")) + "/" + SanitizeFileName(name)
  }

  const PenfriendWarning := "There was an error to contact your penfriend, but your picture has been uploaded"

  /** The assignments of `upload` to the discussion it read. */
  function UpdateDiscussion(before: Value, record: Value, turn: Value, req: Request): (after: Value)
    requires before.Obj? && PriorUploads(before).Some?
    ensures UploadedDiscussion(before, after, record, turn, req)
  {
    var d1 := SetKey(before, "uploads", List(PriorUploads(before).value + [record]));
    var d2 := SetKey(d1, "cancelled", Param(req, "cancelled", Null));
    var d3 := SetKey(d2, "continued", Param(req, "continued", Null));
    var d4 := SetKey(d3, "completed", Param(req, "completed", Null));
    var after := SetKey(d4, "turn", turn);
    assert after.fields == before.fields[
      "uploads" := List(PriorUploads(before).value + [record])][
      "cancelled" := Param(req, "cancelled", Null)][
      "continued" := Param(req, "continued", Null)][
      "completed" := Param(req, "completed", Null)][
      "turn" := turn];
    after
  }

  /** The mail that tells the next author about the saved discussion. */
  function DiscussionMail(env: UploadEnv, next: Value, saved: Value): Mail {
    var completed := Truthy(Get(saved, "completed"));
    var subs := DiscussionSubstitutions(env, next, saved);
    var urls := DiscussionTemplates(completed);
    Mail(Get(next, "email"), DiscussionSubject(completed),
         Templates.Substitute(env.templates(urls[0]), subs),
         Templates.Substitute(env.templates(urls[1]), subs))
  }

  /** What `upload` does once the file is moved: append the upload, pass the
      turn, save, and mail the next author. */
  method AcceptUpload(req: Request, c: Collections, env: UploadEnv, before: Value, next: Value, target: string)
    returns (out: Outcome)
    requires before.Obj?
    ensures var record := UploadRecord(env.siteRelative(target), env.now, env.width);
            if PriorUploads(before).None? then out == Reply(Thrown)
            else
              && |out.writes| == 1 && out.writes[0].Save? && out.writes[0].collection == "discussions"
              && UploadedDiscussion(before, out.writes[0].doc, record, TurnOf(next), req)
              && var saved := c.save("discussions", out.writes[0].doc);
                 && out.mails == [DiscussionMail(env, next, saved)]
                 && out.response == if env.mailSent then Ok(saved) else Stop(412, Warning(PenfriendWarning))
  {
    var prior := PriorUploads(before);
    if prior.None? {
      return Reply(Thrown);
    }
    var record := UploadRecord(env.siteRelative(target), env.now, env.width);
    var discussion := UpdateDiscussion(before, record, TurnOf(next), req);
    var saved := c.save("discussions", discussion);
    var completed := Truthy(Get(saved, "completed"));
    var urls := DiscussionTemplates(completed);
    var bodies := Templates.RenderBodies(urls, env.templates, DiscussionSubstitutions(env, next, saved));
    var mail := Mail(Get(next, "email"), DiscussionSubject(completed), bodies[0], bodies[1]);
    var response := if env.mailSent then Ok(saved) else Stop(412, Warning(PenfriendWarning));
    out := Outcome(response, [Save("discussions", discussion)], [mail]);
  }

  method Upload(req: Request, c: Collections, env: UploadEnv) returns (out: Outcome)
    ensures UploadGuard(req, c).Some? ==> out == Fail(412, UploadGuard(req, c).value)
    ensures UploadGuard(req, c).None? && !env.moved ==>
              out == Fail(412, "There was an error during the upload of the picture " +
                               (if "file" in req.files then req.files["file"].name else ""))
    ensures UploadGuard(req, c).None? && env.moved ==>
              var before := FoundDiscussions(req, c)[0];
              var next := NextAuthor(Authors(before), Param(req, "_userid", Null), c);
              var record := UploadRecord(env.siteRelative(TargetPath(env, before, req)), env.now, env.width);
              if PriorUploads(before).None? then out == Reply(Thrown)
              else
                && |out.writes| == 1 && out.writes[0].Save? && out.writes[0].collection == "discussions"
                && UploadedDiscussion(before, out.writes[0].doc, record, TurnOf(next), req)
                && var saved := c.save("discussions", out.writes[0].doc);
                   && out.mails == [DiscussionMail(env, next, saved)]
                   && out.response == if env.mailSent then Ok(saved) else Stop(412, Warning(PenfriendWarning))
  {
    var guard := UploadGuard(req, c);
    if guard.Some? {
      return Fail(412, guard.value);
    }
    GuardedDiscussionIsObject(req, c);
    var userid := Param(req, "_userid", Null);
    var discussion := FoundDiscussions(req, c)[0];
    var next := FindNextAuthor(Authors(discussion), userid, c);
    var target := TargetPath(env, discussion, req);
    if !env.moved {
      var fileName := if "file" in req.files then req.files["file"].name else "";
      return Fail(412, "There was an error during the upload of the picture " + fileName);
    }
    out := AcceptUpload(req, c, env, discussion, next, target);
  }

  /** After a successful upload the caller no longer holds the turn, so the
      same caller's next upload on the saved discussion is refused. */
  lemma UploadPassesTheTurn(req: Request, c: Collections, before: Value, after: Value, record: Value, c2: Collections)
    requires UploadGuard(req, c).None? && LookupById(c)
    requires before == FoundDiscussions(req, c)[0]
    requires UploadedDiscussion(before, after, record,
                                TurnOf(NextAuthor(Authors(before), Param(req, "_userid", Null), c)), req)
    requires FoundDiscussions(req, c2) == [after]
    ensures UploadGuard(req, c2) == Some(NotYourTurn)
  {
    var userid := Param(req, "_userid", Null);
    NextAuthorIsNotCaller(Authors(before), userid, c);
  }
}
