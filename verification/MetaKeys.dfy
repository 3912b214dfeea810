/** Finding the schema, package and name of a blob under case-insensitive keys. */
module MetaKeys {
  import opened Declcfg

  /** A JSON value: a string, or anything else. */
  datatype Value = Text(text: string) | NotText

  type Blob = map<string, Value>

  datatype Field = SchemaField | PackageField | NameField

  function FieldName(f: Field): string {
    match f
    case SchemaField => "schema"
    case PackageField => "package"
    case NameField => "name"
  }

  function Get(m: Meta, f: Field): string {
    match f
    case SchemaField => m.schema
    case PackageField => m.pkg
    case NameField => m.name
  }

  function Set(m: Meta, f: Field, v: string): Meta {
    match f
    case SchemaField => m.(schema := v)
    case PackageField => m.(pkg := v)
    case NameField => m.(name := v)
  }

  datatype KeyError = DuplicateKeys | NotAString

  ghost predicate FoldInjective(blob: Blob, fold: string -> string) {
    forall a, b :: a in blob && b in blob && fold(a) == fold(b) ==> a == b
  }

  /** Some key folds to the field, and its value is not a string. */
  ghost predicate BadValue(blob: Blob, fold: string -> string, f: Field) {
    exists k :: k in blob && fold(k) == fold(FieldName(f)) && !blob[k].Text?
  }

  /** The field as the blob gives it: the value under a key that folds to it, or what it was. */
  ghost predicate Extracted(blob: Blob, fold: string -> string, before: Meta, after: Meta, f: Field) {
    if exists k :: k in blob && fold(k) == fold(FieldName(f)) then
      exists k :: k in blob && fold(k) == fold(FieldName(f)) && blob[k] == Text(Get(after, f))
    else
      Get(after, f) == Get(before, f)
  }

  /** `after` is the string under a key that folds like `name`, or `before` if there is no such key. */
  ghost predicate Reads(blob: Blob, fold: string -> string, name: string, before: string, after: string) {
    && (forall k :: k in blob && fold(k) == fold(name) ==> blob[k] == Text(after))
    && ((forall k :: k in blob ==> fold(k) != fold(name)) ==> after == before)
  }

  ghost predicate AllText(blob: Blob, fold: string -> string, name: string) {
    forall k :: k in blob && fold(k) == fold(name) ==> blob[k].Text?
  }

  lemma ExtractedReads(blob: Blob, fold: string -> string, m: Meta, after: Meta)
    requires FoldInjective(blob, fold) && forall f: Field :: Extracted(blob, fold, m, after, f)
    ensures Reads(blob, fold, "schema", m.schema, after.schema)
    ensures Reads(blob, fold, "package", m.pkg, after.pkg)
    ensures Reads(blob, fold, "name", m.name, after.name)
  {
    assert Extracted(blob, fold, m, after, SchemaField);
    assert Extracted(blob, fold, m, after, PackageField);
    assert Extracted(blob, fold, m, after, NameField);
  }

  lemma ThreeFields(blob: Blob, fold: string -> string)
    ensures (forall f: Field :: !BadValue(blob, fold, f))
       <==> AllText(blob, fold, "schema") && AllText(blob, fold, "package") && AllText(blob, fold, "name")
  {
    assert BadValue(blob, fold, SchemaField) <==> !AllText(blob, fold, "schema");
    assert BadValue(blob, fold, PackageField) <==> !AllText(blob, fold, "package");
    assert BadValue(blob, fold, NameField) <==> !AllText(blob, fold, "name");
    forall f: Field
      ensures f.SchemaField? || f.PackageField? || f.NameField?
    {
    }
  }

  /** The keys of `keys` are filed under what they fold to. */
  ghost predicate Grouped(keys: set<string>, fold: string -> string, groups: map<string, set<string>>) {
    && (forall k :: k in keys ==> fold(k) in groups)
    && (forall g :: g in groups ==> groups[g] != {} && groups[g] == (set k | k in keys && fold(k) == g))
  }

  /** Ranges over the keys of the blob, in any order. */
  method GroupKeys(blob: Blob, fold: string -> string) returns (groups: map<string, set<string>>)
    ensures Grouped(blob.Keys, fold, groups)
  {
    groups := map[];
    var left := blob.Keys;
    while left != {}
      invariant left <= blob.Keys && Grouped(blob.Keys - left, fold, groups)
      decreases |left|
    {
      var key :| key in left;
      var folded := fold(key);
      if folded !in groups {
        groups := groups[folded := {}];
      }
      groups := groups[folded := groups[folded] + {key}];
      left := left - {key};
    }
    assert blob.Keys - {} == blob.Keys;
  }

  lemma SingletonGroups(blob: Blob, fold: string -> string, groups: map<string, set<string>>)
    requires Grouped(blob.Keys, fold, groups)
    ensures FoldInjective(blob, fold) <==> forall g :: g in groups ==> |groups[g]| == 1
  {
    if FoldInjective(blob, fold) {
      forall g | g in groups
        ensures |groups[g]| == 1
      {
        var k :| k in groups[g];
        assert forall k' :: k' in groups[g] ==> k' == k;
        assert groups[g] == {k};
      }
    }
    if forall g :: g in groups ==> |groups[g]| == 1 {
      forall a, b | a in blob && b in blob && fold(a) == fold(b)
        ensures a == b
      {
        var g := groups[fold(a)];
        assert a in g && b in g;
        assert |g - {a}| == 0;
      }
    }
  }

  method HasDuplicates(groups: map<string, set<string>>) returns (dup: bool)
    ensures dup <==> exists g :: g in groups && |groups[g]| != 1
  {
    dup := false;
    var left := groups.Keys;
    while left != {}
      invariant left <= groups.Keys
      invariant dup <==> exists g :: g in groups && g !in left && |groups[g]| != 1
      decreases |left|
    {
      var g :| g in left;
      if |groups[g]| != 1 {
        dup := true;
      }
      left := left - {g};
    }
  }

  /** Succeeds exactly when no two keys fold to the same string and what is found for the three fields are
      strings, and then gives the same result whatever order the maps are ranged over in. The three field names
      fold to different strings under Unicode case folding. */
  method ExtractUniqueMetaKeys(blob: Blob, m: Meta, fold: string -> string) returns (r: Result<Meta, KeyError>)
    requires fold("schema") != fold("package") && fold("schema") != fold("name") && fold("package") != fold("name")
    ensures r.Ok? <==> FoldInjective(blob, fold) && forall f: Field :: !BadValue(blob, fold, f)
    ensures r == Err(DuplicateKeys) <==> !FoldInjective(blob, fold)
    ensures r.Ok? ==> r.value.blob == m.blob && forall f: Field :: Extracted(blob, fold, m, r.value, f)
    ensures r.Ok? ==> Reads(blob, fold, "schema", m.schema, r.value.schema)
    ensures r.Ok? ==> Reads(blob, fold, "package", m.pkg, r.value.pkg)
    ensures r.Ok? ==> Reads(blob, fold, "name", m.name, r.value.name)
    ensures r.Ok? <==> FoldInjective(blob, fold) && AllText(blob, fold, "schema") && AllText(blob, fold, "package")
                       && AllText(blob, fold, "name")
  {
    ThreeFields(blob, fold);
    var groups := GroupKeys(blob, fold);
    SingletonGroups(blob, fold, groups);
    var dup := HasDuplicates(groups);
    if dup {
      return Err(DuplicateKeys);
    }
    r := FillFields(blob, m, fold, groups);
    if r.Ok? {
      ExtractedReads(blob, fold, m, r.value);
    }
  }

  /** Ranges over the three fields, in any order. */
  method FillFields(blob: Blob, m: Meta, fold: string -> string, groups: map<string, set<string>>)
    returns (r: Result<Meta, KeyError>)
    requires Grouped(blob.Keys, fold, groups) && FoldInjective(blob, fold)
    ensures r.Ok? <==> forall f: Field :: !BadValue(blob, fold, f)
    ensures r.Err? ==> r.error.NotAString?
    ensures r.Ok? ==> r.value.blob == m.blob && forall f: Field :: Extracted(blob, fold, m, r.value, f)
  {
    var out := m;
    var left := {SchemaField, PackageField, NameField};
    assert forall f: Field :: f in left by {
      forall f: Field
        ensures f in left
      {
        assert f.SchemaField? || f.PackageField? || f.NameField?;
      }
    }
    while left != {}
      invariant forall f: Field :: f !in left ==> !BadValue(blob, fold, f) && Extracted(blob, fold, m, out, f)
      invariant forall f: Field :: f in left ==> Get(out, f) == Get(m, f)
      invariant out.blob == m.blob
      decreases |left|
    {
      var f :| f in left;
      left := left - {f};
      var folded := fold(FieldName(f));
      if folded in groups {
        var key :| key in groups[folded];
        if blob[key].NotText? {
          assert BadValue(blob, fold, f);
          return Err(NotAString);
        }
        SetGet(out, f, blob[key].text);
        ExtractedKept(blob, fold, m, out, Set(out, f, blob[key].text), f);
        out := Set(out, f, blob[key].text);
        assert blob[key] == Text(Get(out, f));
      } else {
        assert forall k :: k in blob ==> fold(k) != folded;
      }
    }
    return Ok(out);
  }

  lemma ExtractedKept(blob: Blob, fold: string -> string, m: Meta, a: Meta, b: Meta, except: Field)
    requires forall f: Field :: f != except ==> Get(a, f) == Get(b, f)
    ensures forall f: Field :: f != except && Extracted(blob, fold, m, a, f) ==> Extracted(blob, fold, m, b, f)
  {
  }

  lemma SetGet(m: Meta, f: Field, v: string)
    ensures Get(Set(m, f, v), f) == v
    ensures forall g: Field :: g != f ==> Get(Set(m, f, v), g) == Get(m, g)
    ensures Set(m, f, v).blob == m.blob
  {
  }

  /** The result does not depend on the order of iteration: the conditions above determine it. */
  lemma ExtractedUnique(blob: Blob, fold: string -> string, m: Meta, a: Meta, b: Meta)
    requires FoldInjective(blob, fold) && a.blob == b.blob
    requires forall f: Field :: Extracted(blob, fold, m, a, f) && Extracted(blob, fold, m, b, f)
    ensures a == b
  {
    forall f: Field
      ensures Get(a, f) == Get(b, f)
    {
      assert Extracted(blob, fold, m, a, f) && Extracted(blob, fold, m, b, f);
    }
    assert Get(a, SchemaField) == Get(b, SchemaField) && Get(a, PackageField) == Get(b, PackageField)
        && Get(a, NameField) == Get(b, NameField);
  }
}
