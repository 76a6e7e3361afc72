/** Model-field metadata as the library reads it through `_meta`: each
    field's name, verbose name, the Django field class it is an instance
    of, its `choices` and its `auto_created` flag.  Reverse relations
    (`ManyToOneRel`, `ManyToManyRel`) appear among `get_fields()`. */
module Fields {
  import opened Errors

  /** A field or attribute value. */
  datatype Value = IntValue(i: int) | StrValue(s: string) | BoolValue(b: bool) | NoneValue | ObjectValue(id: int)

  /** One `(value, label)` pair of a field's `choices`. */
  datatype Choice = Choice(value: Value, display: string)

  /** The field classes the library tests with `isinstance`. */
  datatype FieldKind =
    | ForeignKey(parentLink: bool)                 // ForeignKey / OneToOneField; parentLink for a multi-table parent link
    | IntegerField                                 // IntegerField and its subclasses
    | BooleanField
    | CharField(maxLength: Option<int>, isUrl: bool) // CharField and its subclasses; isUrl for URLField
    | FileField                                    // FileField and ImageField
    | OtherField                                   // Date, DateTime, Text, ... : none of the above
    | ReverseRelation(parentLink: bool, accessor: string, relatedVerboseName: string)
                                                   // ManyToOneRel / ManyToManyRel: accessor = get_accessor_name()

  datatype Field = Field(
    name: string,
    verboseName: string,
    kind: FieldKind,
    choices: seq<Choice>,
    autoCreated: bool
  )

  /** The names of the fields, in order. */
  function Names(fs: seq<Field>): (r: seq<string>)
    ensures |r| == |fs|
    ensures forall i :: 0 <= i < |fs| ==> r[i] == fs[i].name
  {
    if fs == [] then [] else [fs[0].name] + Names(fs[1..])
  }
}
