/**
 * The slice of the Terraform plugin framework the provider relies on:
 * attribute values, diagnostics, the set conversions of the `types` package,
 * the schema validators it declares, and the response objects handlers fill in.
 */
module Framework {
  import opened Wrappers
  import opened GoStrconv
  import opened GoStrings

  /** A framework attribute value (`types.Int64`, `types.String`, `types.Set`, ...). */
  datatype Val<+T> = Null | Unknown | Known(v: T)

  /** `ValueInt64()` / `ValueString()` / `ValueBool()`: the value, or the zero value when null or unknown. */
  function ValueOr<T>(x: Val<T>, zero: T): (r: T)
    ensures x.Known? ==> r == x.v
    ensures !x.Known? ==> r == zero
  {
    if x.Known? then x.v else zero
  }

  function ValueInt64(x: Val<Int64>): Int64 { ValueOr(x, 0) }
  function ValueString(x: Val<string>): string { ValueOr(x, "") }
  function ValueBool(x: Val<bool>): bool { ValueOr(x, false) }

  /** `ValueXPointer()`: nil only for a null value; an unknown value points at the zero value. */
  function ValuePointer<T>(x: Val<T>, zero: T): (r: Option<T>)
    ensures r.None? <==> x.Null?
    ensures x.Known? ==> r == Some(x.v)
    ensures x.Unknown? ==> r == Some(zero)
  {
    if x.Null? then None else Some(ValueOr(x, zero))
  }

  /** An error diagnostic, as added by `AddError(summary, detail)`. */
  datatype Diagnostic = Diagnostic(summary: string, detail: string)

  /** Summary of the error the framework's reflection adds when an unknown value meets a target that cannot hold one. */
  const ValueConversionError := "Value Conversion Error"
  const UnknownValueDetail := "Received unknown value, however the target type cannot handle unknown values."

  /** `types.SetValueFrom(ctx, types.StringType, xs)`: the set of the slice's elements. */
  function SetValueFrom(xs: seq<string>): (r: Val<set<string>>)
    ensures r.Known? && forall x :: x in r.v <==> x in xs
  {
    Known(set x | x in xs)
  }

  /**
   * `set.ElementsAs(ctx, &slice, allowUnhandled)` into a `[]string`. A null set
   * gives a nil slice; an unknown set is an error unless allowUnhandled, in
   * which case it gives a nil slice too; a known set gives its elements once
   * each, in the order of GoStrings.Elements.
   */
  function ElementsAs(x: Val<set<string>>, allowUnhandled: bool): (r: (seq<string>, seq<Diagnostic>))
    ensures (set e | e in r.0) == (if x.Known? then x.v else {})
    ensures forall i, j :: 0 <= i < j < |r.0| ==> r.0[i] != r.0[j]
    ensures r.1 != [] <==> x.Unknown? && !allowUnhandled
  {
    match x
    case Null => ([], [])
    case Unknown => ([], if allowUnhandled then [] else [Diagnostic(ValueConversionError, UnknownValueDetail)])
    case Known(s) => (Elements(s), [])
  }

  /** Converting a slice into a set and back keeps the elements, though not their order or repetitions. */
  lemma SetValueFromElementsAs(xs: seq<string>, allowUnhandled: bool)
    ensures var r := ElementsAs(SetValueFrom(xs), allowUnhandled);
      r.1 == [] && (forall x :: x in r.0 <==> x in xs)
  {
    var r := ElementsAs(SetValueFrom(xs), allowUnhandled);
    assert forall x :: x in r.0 <==> x in (set e | e in r.0);
  }

  // ---------------------------------------------------------------------------
  // Validators. Every framework validator skips null and unknown values.

  /** `stringvalidator.OneOf(values...)`: exact, case-sensitive membership. */
  predicate OneOf(values: seq<string>, x: Val<string>) {
    x.Known? ==> x.v in values
  }

  predicate AllAscii(values: seq<string>) {
    forall i :: 0 <= i < |values| ==> IsAscii(values[i])
  }

  /** `stringvalidator.OneOfCaseInsensitive(values...)`: some value is `strings.EqualFold` to x. */
  predicate OneOfCaseInsensitive(values: seq<string>, x: Val<string>)
    requires AllAscii(values)
  {
    x.Known? ==> exists i :: 0 <= i < |values| && EqualFold(x.v, values[i])
  }

  /** `setvalidator.ValueStringsAre(v)`: every element of a known set passes the string validator v. */
  predicate ValueStringsAre(x: Val<set<string>>, v: Val<string> -> bool) {
    x.Known? ==> forall e :: e in x.v ==> v(Known(e))
  }

  /** `int64validator.AtLeast(min)`. */
  predicate AtLeast(min: int, x: Val<Int64>) {
    x.Known? ==> x.v >= min
  }

  // ---------------------------------------------------------------------------
  // Responses

  /** A plain attribute value written by `State.SetAttribute`. */
  datatype AttrValue = IntAttr(i: Int64) | StrAttr(s: string)

  /**
   * The response of a Create, Read, Update or Delete handler, and of a data
   * source's Read: the diagnostics and the state, absent when no resource is
   * recorded (not yet set, or removed).
   */
  class Response<S> {
    var diagnostics: seq<Diagnostic>
    var state: Option<S>

    constructor (state: Option<S>)
      ensures diagnostics == [] && this.state == state
    {
      diagnostics := [];
      this.state := state;
    }

    /** `Diagnostics.HasError()`: every diagnostic of this model is an error. */
    predicate HasError()
      reads this
    {
      diagnostics != []
    }

    method AddError(summary: string, detail: string)
      modifies this
      ensures diagnostics == old(diagnostics) + [Diagnostic(summary, detail)]
      ensures state == old(state)
    {
      diagnostics := diagnostics + [Diagnostic(summary, detail)];
    }

    method Append(ds: seq<Diagnostic>)
      modifies this
      ensures diagnostics == old(diagnostics) + ds
      ensures state == old(state)
    {
      diagnostics := diagnostics + ds;
    }

    /** `State.Set(ctx, &data)`: records a copy of the model value. */
    method SetState(s: S)
      modifies this
      ensures state == Some(s)
      ensures diagnostics == old(diagnostics)
    {
      state := Some(s);
    }

    /** `State.RemoveResource(ctx)`. */
    method RemoveResource()
      modifies this
      ensures state == None
      ensures diagnostics == old(diagnostics)
    {
      state := None;
    }
  }

  /** The response of ImportState: diagnostics and the attributes set so far, by attribute name. */
  class ImportResponse {
    var diagnostics: seq<Diagnostic>
    var attributes: map<string, AttrValue>

    constructor ()
      ensures diagnostics == [] && attributes == map[]
    {
      diagnostics := [];
      attributes := map[];
    }

    method AddError(summary: string, detail: string)
      modifies this
      ensures diagnostics == old(diagnostics) + [Diagnostic(summary, detail)]
      ensures attributes == old(attributes)
    {
      diagnostics := diagnostics + [Diagnostic(summary, detail)];
    }

    /** `State.SetAttribute(ctx, path.Root(name), value)`. */
    method SetAttribute(name: string, value: AttrValue)
      modifies this
      ensures attributes == old(attributes)[name := value]
      ensures diagnostics == old(diagnostics)
    {
      attributes := attributes[name := value];
    }
  }
}
