/** The `scaffold` management command (`libs/management/commands/scaffold.py`):
    it turns field specifications such as `name:str` into model field
    declarations and derives the new application's names and directories
    from its dotted package.  Rendering the templates and writing the
    files are not part of this model. */
module Scaffold {
  import opened Errors
  import opened Text

  const CreatedAtCode: string := "created_at = DateTimeField(verbose_name=\"作成日時\", auto_now_add=True)"
  const UpdatedAtCode: string := "updated_at = DateTimeField(verbose_name=\"更新日時\", auto_now=True)"
  const UrlCode: string := "url = URLField(verbose_name=\"URL\", blank=True)"

  /** The specifications that stand for a fixed declaration. */
  predicate IsSpecial(spec: string)
  {
    spec == "created_at" || spec == "updated_at" || spec == "url"
  }

  /** The declaration after `<name> = ` for each known type name. */
  function TypeCode(fieldType: string): (r: Option<string>)
    ensures r.Some? <==> fieldType in {"str", "date", "datetime", "text", "bool"}
  {
    if fieldType == "str" then Some("CharField(max_length=100, verbose_name=\"\")")
    else if fieldType == "date" then Some("DateField(verbose_name=\"\")")
    else if fieldType == "datetime" then Some("DateTimeField(verbose_name=\"\")")
    else if fieldType == "text" then Some("TextField(verbose_name=\"\")")
    else if fieldType == "bool" then Some("BooleanField(verbose_name=\"\")")
    else None
  }

  /** The declaration for one field specification: the fixed ones, or
      `name:type` with a known type.  Unpacking `spec.split(":")` into two
      names fails unless there is exactly one colon (`UnpackFailed`); an
      unknown type is a `CommandError` (`CommandFailed`). */
  function FieldCode(spec: string): (r: Result<string>)
    ensures spec == "created_at" ==> r == Ok(CreatedAtCode)
    ensures spec == "updated_at" ==> r == Ok(UpdatedAtCode)
    ensures spec == "url" ==> r == Ok(UrlCode)
    ensures r.Err? ==> r.error == UnpackFailed || r.error == CommandFailed
  {
    if spec == "created_at" then Ok(CreatedAtCode)
    else if spec == "updated_at" then Ok(UpdatedAtCode)
    else if spec == "url" then Ok(UrlCode)
    else
      var parts := Split(spec, ':');
      if |parts| != 2 then Err(UnpackFailed)
      else
        match TypeCode(parts[1])
        case None => Err(CommandFailed)
        case Some(code) => Ok(parts[0] + " = " + code)
  }

  /** `name:type`: the declaration of `name` with the type's field class,
      or `CommandFailed` for a type the command does not know. */
  lemma NamedField(name: string, fieldType: string)
    requires ':' !in name && ':' !in fieldType
    ensures TypeCode(fieldType).Some? ==> FieldCode(name + ":" + fieldType) == Ok(name + " = " + TypeCode(fieldType).value)
    ensures TypeCode(fieldType).None? ==> FieldCode(name + ":" + fieldType) == Err(CommandFailed)
  {
    var spec := name + ":" + fieldType;
    assert [name, fieldType][1..] == [fieldType];
    assert Join([name, fieldType], ':') == spec;
    SplitJoin([name, fieldType], ':');
    NotSpecial(spec, |name|);
  }

  /** A specification with a colon is not one of the fixed ones. */
  lemma NotSpecial(spec: string, k: nat)
    requires k < |spec| && spec[k] == ':'
    ensures !IsSpecial(spec)
  {
    assert ':' in spec;
    assert ':' !in "created_at" && ':' !in "updated_at" && ':' !in "url";
  }

  /** A specification that is not one of the fixed ones needs exactly one
      colon: none, or two, cannot be unpacked. */
  lemma UnpackFailures(a: string, b: string, c: string)
    requires ':' !in a && ':' !in b && ':' !in c
    ensures !IsSpecial(a) ==> FieldCode(a) == Err(UnpackFailed)
    ensures FieldCode(a + ":" + b + ":" + c) == Err(UnpackFailed)
  {
    SplitOfPiece(a, ':');
    var spec := a + ":" + b + ":" + c;
    assert [a, b, c][1..] == [b, c] && [b, c][1..] == [c];
    assert Join([b, c], ':') == b + [':'] + c;
    assert spec == a + [':'] + (b + [':'] + c);
    assert Join([a, b, c], ':') == spec;
    SplitJoin([a, b, c], ':');
    NotSpecial(spec, |a|);
  }

  /** The loop over the field specifications: one declaration per
      specification, in order, or the first failure. */
  method FieldCodes(fields: seq<string>) returns (r: Result<seq<string>>)
    ensures r.Ok? <==> forall i :: 0 <= i < |fields| ==> FieldCode(fields[i]).Ok?
    ensures r.Ok? ==> |r.value| == |fields| && forall i :: 0 <= i < |fields| ==> r.value[i] == FieldCode(fields[i]).value
    ensures r.Err? ==> exists k :: 0 <= k < |fields| && FieldCode(fields[k]) == Err(r.error)
                                   && forall i :: 0 <= i < k ==> FieldCode(fields[i]).Ok?
  {
    var fieldCodes: seq<string> := [];
    for k := 0 to |fields|
      invariant |fieldCodes| == k
      invariant forall i :: 0 <= i < k ==> FieldCode(fields[i]).Ok? && fieldCodes[i] == FieldCode(fields[i]).value
    {
      var field := fields[k];
      var fieldCode: string;
      if field == "created_at" {
        fieldCode := CreatedAtCode;
      } else if field == "updated_at" {
        fieldCode := UpdatedAtCode;
      } else if field == "url" {
        fieldCode := UrlCode;
      } else {
        var parts := Split(field, ':');
        if |parts| != 2 {
          return Err(UnpackFailed);
        }
        var fieldName, fieldType := parts[0], parts[1];
        var code := TypeCode(fieldType);
        if code.None? {
          return Err(CommandFailed);
        }
        fieldCode := fieldName + " = " + code.value;
      }
      fieldCodes := fieldCodes + [fieldCode];
    }
    return Ok(fieldCodes);
  }

  // ---------------------------------------------------------------------
  // Names derived from the package

  /** `".".join(package.split(".")[0:2])`. */
  function ConstPackage(package: string): (r: string)
    ensures r <= package
  {
    var parts := Split(package, '.');
    JoinSplit(package, '.');
    JoinPrefix(parts, if |parts| < 2 then |parts| else 2, '.');
    Join(parts[..if |parts| < 2 then |parts| else 2], '.')
  }

  /** `package.split(".")[-1]`. */
  function SnakeName(package: string): (r: string)
    ensures '.' !in r
  {
    var parts := Split(package, '.');
    parts[|parts| - 1]
  }

  /** `snake_name.replace("_", "-")`. */
  function AppName(package: string): (r: string)
    ensures '.' !in r && '_' !in r
  {
    ReplaceChar(SnakeName(package), '_', '-')
  }

  /** `package.removeprefix("apps.").replace(".", ":").replace("_", "-")`. */
  function UrlPrefix(package: string): (r: string)
    ensures '.' !in r && '_' !in r
    ensures "apps." <= package ==> |r| == |package| - 5
  {
    ReplaceChar(ReplaceChar(RemovePrefix(package, "apps."), '.', ':'), '_', '-')
  }

  /** `package.replace(".", "/")`. */
  function Directory(package: string): (r: string)
    ensures |r| == |package| && '.' !in r
  {
    ReplaceChar(package, '.', '/')
  }

  /** `directory + "/tests"`. */
  function TestDirectory(package: string): (r: string)
    ensures Directory(package) <= r && EndsWith(r, "/tests")
  {
    var t := Directory(package) + "/tests";
    assert t[|t| - 6..] == "/tests";
    t
  }

  /** The constant package is the package's first two components. */
  lemma ConstPackageComponents(package: string)
    ensures var parts := Split(package, '.');
      Split(ConstPackage(package), '.') == parts[..if |parts| < 2 then |parts| else 2]
  {
    var parts := Split(package, '.');
    var head := parts[..if |parts| < 2 then |parts| else 2];
    assert forall i :: 0 <= i < |head| ==> head[i] == parts[i];
    SplitJoin(head, '.');
  }

  /** A package made of dot-free components: the application name is its
      last component, with hyphens for underscores. */
  lemma AppNameOfComponents(components: seq<string>)
    requires |components| >= 1
    requires forall i :: 0 <= i < |components| ==> '.' !in components[i]
    ensures AppName(Join(components, '.')) == ReplaceChar(components[|components| - 1], '_', '-')
  {
    SplitJoin(components, '.');
    SnakeNameOfSplit(Join(components, '.'), components);
  }

  lemma SnakeNameOfSplit(package: string, parts: seq<string>)
    requires Split(package, '.') == parts
    ensures SnakeName(package) == parts[|parts| - 1]
  {
  }

  /** What the command hands to its templates and to the file writer. */
  datatype Plan = Plan(
    package: string,
    constPackage: string,
    appName: string,
    modelName: string,
    urlPrefix: string,
    fieldCodes: seq<string>,
    directory: string,
    testDirectory: string)

  /** `handle`: the field declarations, then the derived names. */
  method Handle(package: string, model: string, fields: seq<string>) returns (r: Result<Plan>)
    ensures r.Ok? <==> forall i :: 0 <= i < |fields| ==> FieldCode(fields[i]).Ok?
    ensures r.Ok? ==> var p := r.value;
      && p.package == package && p.modelName == model
      && |p.fieldCodes| == |fields|
      && (forall i :: 0 <= i < |fields| ==> p.fieldCodes[i] == FieldCode(fields[i]).value)
      && p.constPackage == ConstPackage(package) && p.appName == AppName(package)
      && p.urlPrefix == UrlPrefix(package)
      && p.directory == Directory(package) && p.testDirectory == TestDirectory(package)
  {
    var codes := FieldCodes(fields);
    if codes.Err? {
      return Err(codes.error);
    }
    var directory := Directory(package);
    r := Ok(Plan(package, ConstPackage(package), AppName(package), model, UrlPrefix(package), codes.value,
                 directory, directory + "/tests"));
  }
}
