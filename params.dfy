/** The parameter binder of the tool server: helpers that take typed values
    out of the untyped argument map of a tool call (pkg/github/server.go).
    An argument is a Go `any`; a helper's type parameter `T` is a `Kind`, and
    a Go `(T, error)` pair is a `Bound<T>` holding both halves, since the
    helpers return a zero value or an empty slice beside an error. */
module Params {
  import opened Wrappers
  import opened Strings

  // ---------------------------------------------------------------------
  // Arguments and Go dynamic types
  // ---------------------------------------------------------------------

  /** A decoded JSON argument, tagged by its Go dynamic type. A float64 is a
      `real` (rounding, NaN and infinities are not modelled). */
  datatype Value =
    | Str(s: string)                 // string
    | Float(f: real)                 // float64, what encoding/json makes of a number
    | Int(i: int)                    // int
    | Int64(i: int)                  // int64
    | Number(text: string)           // json.Number
    | Bool(b: bool)                  // bool
    | StringSlice(items: seq<string>) // []string
    | AnySlice(elems: seq<Value>)    // []any
    | Nil                            // a nil interface

  /** `request.Params.Arguments`. */
  type Arguments = map<string, Value>

  /** The concrete Go types a helper can be instantiated at. */
  datatype Kind = KString | KFloat64 | KInt | KInt64 | KNumber | KBool | KStringSlice | KAnySlice

  /** Go's `comparable` constraint: slices cannot be compared with `==`. */
  predicate Comparable(k: Kind)
  {
    !k.KStringSlice? && !k.KAnySlice?
  }

  /** `%T` of a value of type `k`. */
  function KindName(k: Kind): string
  {
    match k
    case KString => "string"
    case KFloat64 => "float64"
    case KInt => "int"
    case KInt64 => "int64"
    case KNumber => "json.Number"
    case KBool => "bool"
    case KStringSlice => "[]string"
    case KAnySlice => "[]interface {}"
  }

  /** The type assertion `v.(T)` succeeds: `v`'s dynamic type is exactly `k`. */
  predicate HasKind(v: Value, k: Kind)
  {
    match k
    case KString => v.Str?
    case KFloat64 => v.Float?
    case KInt => v.Int?
    case KInt64 => v.Int64?
    case KNumber => v.Number?
    case KBool => v.Bool?
    case KStringSlice => v.StringSlice?
    case KAnySlice => v.AnySlice?
  }

  /** `%T` of a dynamic value; a nil interface prints as `<nil>`. */
  function TypeName(v: Value): (name: string)
    ensures forall k :: HasKind(v, k) ==> name == KindName(k)
  {
    match v
    case Str(_) => "string"
    case Float(_) => "float64"
    case Int(_) => "int"
    case Int64(_) => "int64"
    case Number(_) => "json.Number"
    case Bool(_) => "bool"
    case StringSlice(_) => "[]string"
    case AnySlice(_) => "[]interface {}"
    case Nil => "<nil>"
  }

  /** `var zero T`; a nil slice is an empty one here. */
  function Zero(k: Kind): (z: Value)
    ensures HasKind(z, k)
  {
    match k
    case KString => Str("")
    case KFloat64 => Float(0.0)
    case KInt => Int(0)
    case KInt64 => Int64(0)
    case KNumber => Number("")
    case KBool => Bool(false)
    case KStringSlice => StringSlice([])
    case KAnySlice => AnySlice([])
  }

  /** A Go `(T, error)` pair. */
  datatype Bound<T> = Bound(value: T, err: Option<string>)

  /** A Go `(T, bool, error)` triple. */
  datatype BoundOK<T> = BoundOK(value: T, ok: bool, err: Option<string>)

  function MissingParam(p: string): string
  {
    "missing required parameter: " + p
  }

  function NotOfType(p: string, k: Kind): string
  {
    "parameter " + p + " is not of type " + KindName(k)
  }

  function NotOfTypeIs(p: string, k: Kind, v: Value): string
  {
    NotOfType(p, k) + ", is " + TypeName(v)
  }

  // ---------------------------------------------------------------------
  // Generic helpers
  // ---------------------------------------------------------------------

  /** OptionalParamOK[T]: `ok` reports presence, even when the value has the
      wrong type; the value is the argument only when it has type `k`. */
  function OptionalParamOK(args: Arguments, p: string, k: Kind): (r: BoundOK<Value>)
    ensures r.ok <==> p in args
    ensures r.err.None? <==> p !in args || HasKind(args[p], k)
    ensures r.err.Some? ==> r.err.value == NotOfTypeIs(p, k, args[p])
    ensures r.value == if r.ok && r.err.None? then args[p] else Zero(k)
    ensures HasKind(r.value, k)
  {
    if p !in args then BoundOK(Zero(k), false, None)
    else if !HasKind(args[p], k) then BoundOK(Zero(k), true, Some(NotOfTypeIs(p, k, args[p])))
    else BoundOK(args[p], true, None)
  }

  /** OptionalParam[T]: an absent key is the zero value without error. */
  function OptionalParam(args: Arguments, p: string, k: Kind): (r: Bound<Value>)
    ensures r.err.None? <==> p !in args || HasKind(args[p], k)
    ensures r.err.Some? ==> r.err.value == NotOfTypeIs(p, k, args[p])
    ensures r.value == if p in args && r.err.None? then args[p] else Zero(k)
  {
    if p !in args then Bound(Zero(k), None)
    else if !HasKind(args[p], k) then Bound(Zero(k), Some(NotOfTypeIs(p, k, args[p])))
    else Bound(args[p], None)
  }

  /** requiredParam[T comparable]: presence, then type, then non-zero; the
      first failing check decides the error. */
  function RequiredParam(args: Arguments, p: string, k: Kind): (r: Bound<Value>)
    requires Comparable(k)
    ensures r.err.None? <==> p in args && HasKind(args[p], k) && args[p] != Zero(k)
    ensures r.err.None? ==> r.value == args[p]
    ensures r.err.Some? ==> r.value == Zero(k)
    ensures p !in args ==> r.err == Some(MissingParam(p))
    ensures p in args && !HasKind(args[p], k) ==> r.err == Some(NotOfType(p, k))
    ensures p in args && args[p] == Zero(k) ==> r.err == Some(MissingParam(p))
  {
    if p !in args then Bound(Zero(k), Some(MissingParam(p)))
    else if !HasKind(args[p], k) then Bound(Zero(k), Some(NotOfType(p, k)))
    else if args[p] == Zero(k) then Bound(Zero(k), Some(MissingParam(p)))
    else Bound(args[p], None)
  }

  /** OptionalParam is OptionalParamOK without the presence flag. */
  lemma OptionalParamForgetsPresence(args: Arguments, p: string, k: Kind)
    ensures var full := OptionalParamOK(args, p, k);
            OptionalParam(args, p, k) == Bound(full.value, full.err)
  {
  }

  /** A required parameter is an optional one that is also non-zero: the
      two helpers agree on every argument map. */
  lemma RequiredIsOptionalNonZero(args: Arguments, p: string, k: Kind)
    requires Comparable(k)
    ensures var req, opt := RequiredParam(args, p, k), OptionalParam(args, p, k);
            (req.err.None? <==> opt.err.None? && opt.value != Zero(k))
            && (req.err.None? ==> req.value == opt.value)
  {
  }

  /** The required-string check that every project handler runs: it passes
      exactly for a present, non-empty string. */
  lemma RequiredStringPassesNonEmpty(args: Arguments, p: string)
    ensures RequiredParam(args, p, KString).err.None? <==> p in args && args[p].Str? && args[p].s != ""
    ensures RequiredParam(args, p, KString).err.None? ==> RequiredParam(args, p, KString).value == args[p]
  {
  }

  // ---------------------------------------------------------------------
  // Integers
  // ---------------------------------------------------------------------

  /** Go's `int(f)` for a float64: truncation toward zero. */
  function Trunc(f: real): (n: int)
    ensures 0.0 <= f ==> n as real <= f < n as real + 1.0
    ensures f < 0.0 ==> n as real - 1.0 < f <= n as real
  {
    if f >= 0.0 then f.Floor else -((-f).Floor)
  }

  /** A Go number of a kind requiredInt accepts. */
  predicate IsNumeric(v: Value)
  {
    v.Float? || v.Int? || v.Int64? || v.Number?
  }

  /** requiredInt: float64 truncates, int and int64 pass through, json.Number
      goes through `Int64()`, every other type is an error. Zero is NOT
      rejected. */
  function RequiredInt(args: Arguments, p: string): (r: Bound<int>)
    ensures r.err.Some? ==> r.value == 0
    ensures p !in args ==> r.err == Some(MissingParam(p))
    ensures r.err.None? <==> p in args && IsNumeric(args[p]) && (args[p].Number? ==> ParseInt64(args[p].text).Ok?)
    ensures p in args && args[p].Float? ==> r == Bound(Trunc(args[p].f), None)
    ensures p in args && (args[p].Int? || args[p].Int64?) ==> r == Bound(args[p].i, None)
    ensures p in args && args[p].Number? && ParseInt64(args[p].text).Ok? ==> r == Bound(ParseInt64(args[p].text).value, None)
    ensures p in args && args[p].Number? && ParseInt64(args[p].text).Err? ==>
              r.err == Some("failed to parse " + p + " as int: " + ParseInt64(args[p].text).msg)
    ensures p in args && !IsNumeric(args[p]) ==>
              r.err == Some("invalid type for " + p + ", expected number, got " + TypeName(args[p]))
  {
    if p !in args then Bound(0, Some(MissingParam(p)))
    else
      match args[p]
      case Float(f) => Bound(Trunc(f), None)
      case Int(i) => Bound(i, None)
      case Int64(i) => Bound(i, None)
      case Number(text) =>
        (match ParseInt64(text)
         case Err(e) => Bound(0, Some("failed to parse " + p + " as int: " + e))
         case Ok(i) => Bound(i, None))
      case _ => Bound(0, Some("invalid type for " + p + ", expected number, got " + TypeName(args[p])))
  }

  /** 2^53: every integer up to this magnitude is exactly a float64. */
  const MaxExactFloat: int := 0x20_0000_0000_0000

  /** Every 64-bit integer reads the same whether it arrives as an int, an
      int64 or a decimal json.Number (`5` and `"5"` both give 5); as a float64
      (`5.0`) when it is exactly representable, that is within 2^53. */
  lemma NumericFormsAgree(p: string, n: int)
    requires MinInt64 <= n <= MaxInt64
    ensures -MaxExactFloat <= n <= MaxExactFloat ==> RequiredInt(map[p := Float(n as real)], p) == Bound(n, None)
    ensures RequiredInt(map[p := Int(n)], p) == Bound(n, None)
    ensures RequiredInt(map[p := Int64(n)], p) == Bound(n, None)
    ensures RequiredInt(map[p := Number(FormatInt(n))], p) == Bound(n, None)
  {
    FormatParseRoundTrip(n);
  }

  /** As written, requiredInt lets a present zero through, although its own
      documentation lists a non-zero check. */
  lemma RequiredIntAcceptsZero(p: string)
    ensures RequiredInt(map[p := Int(0)], p) == Bound(0, None)
    ensures RequiredInt(map[p := Float(0.5)], p) == Bound(0, None)
  {
  }

  /** requiredInt with the documented third check: a value that converts to
      zero is reported as missing, like requiredParam does. */
  function RequiredNonZeroInt(args: Arguments, p: string): (r: Bound<int>)
    ensures r.err.None? ==> r.value != 0 && r == RequiredInt(args, p)
    ensures r.err.None? <==> RequiredInt(args, p).err.None? && RequiredInt(args, p).value != 0
    ensures RequiredInt(args, p).err.None? && RequiredInt(args, p).value == 0 ==> r == Bound(0, Some(MissingParam(p)))
  {
    var r := RequiredInt(args, p);
    if r.err.None? && r.value == 0 then Bound(0, Some(MissingParam(p))) else r
  }

  /** OptionalIntParam: an optional float64, truncated. */
  function OptionalIntParam(args: Arguments, p: string): (r: Bound<int>)
    ensures r.err == OptionalParam(args, p, KFloat64).err
    ensures r.err.None? <==> p !in args || args[p].Float?
    ensures r.value == if p in args && args[p].Float? then Trunc(args[p].f) else 0
  {
    var v := OptionalParam(args, p, KFloat64);
    if v.err.Some? then Bound(0, v.err) else Bound(Trunc(v.value.f), None)
  }

  /** OptionalIntParamWithDefault: an absent key or a value that truncates to
      zero gives the default `d`; nothing else is substituted. */
  function OptionalIntParamWithDefault(args: Arguments, p: string, d: int): (r: Bound<int>)
    ensures r.err == OptionalIntParam(args, p).err
    ensures r.err.Some? ==> r.value == 0
    ensures r.err.None? && p !in args ==> r.value == d
    ensures r.err.None? && p in args ==> r.value == if Trunc(args[p].f) == 0 then d else Trunc(args[p].f)
  {
    var v := OptionalIntParam(args, p);
    if v.err.Some? then Bound(0, v.err)
    else if v.value == 0 then Bound(d, None)
    else Bound(v.value, None)
  }

  /** PaginationParams. */
  datatype Pagination = Pagination(page: int, perPage: int)

  const DefaultPage: int := 1
  const DefaultPerPage: int := 30

  /** OptionalPaginationParams: page then perPage, each defaulted when absent or
      zero; the first error wins and comes with an all-zero value. */
  function OptionalPaginationParams(args: Arguments): (r: Bound<Pagination>)
    ensures r.err.None? <==> ("page" !in args || args["page"].Float?) && ("perPage" !in args || args["perPage"].Float?)
    ensures r.err.Some? ==> r.value == Pagination(0, 0)
    ensures r.err.None? ==> r.value.page != 0 && r.value.perPage != 0
    ensures r.err.None? ==> r.value.page == OptionalIntParamWithDefault(args, "page", DefaultPage).value
    ensures r.err.None? ==> r.value.perPage == OptionalIntParamWithDefault(args, "perPage", DefaultPerPage).value
    ensures "page" in args && !args["page"].Float? ==> r.err == OptionalParam(args, "page", KFloat64).err
    ensures ("page" !in args || args["page"].Float?) && "perPage" in args && !args["perPage"].Float? ==>
              r.err == OptionalParam(args, "perPage", KFloat64).err
  {
    var page := OptionalIntParamWithDefault(args, "page", DefaultPage);
    if page.err.Some? then Bound(Pagination(0, 0), page.err)
    else
      var perPage := OptionalIntParamWithDefault(args, "perPage", DefaultPerPage);
      if perPage.err.Some? then Bound(Pagination(0, 0), perPage.err)
      else Bound(Pagination(page.value, perPage.value), None)
  }

  /** No page arguments, or zeros, mean page 1 of 30; declared bounds are not
      enforced: perPage 150 stays 150 and a negative page passes through. */
  lemma PaginationDefaultsAndNoClamp()
    ensures OptionalPaginationParams(map[]) == Bound(Pagination(1, 30), None)
    ensures OptionalPaginationParams(map["page" := Float(0.0), "perPage" := Float(0.0)]) == Bound(Pagination(1, 30), None)
    ensures OptionalPaginationParams(map["perPage" := Float(150.0)]) == Bound(Pagination(1, 150), None)
    ensures OptionalPaginationParams(map["page" := Float(-2.0)]) == Bound(Pagination(-2, 30), None)
    ensures OptionalPaginationParams(map["page" := Int(2)]).err.Some?
  {
    assert Trunc(-2.0) == -2;
  }

  // ---------------------------------------------------------------------
  // String arrays
  // ---------------------------------------------------------------------

  /** The first element of `elems` that is not a string is at index `k`. */
  ghost predicate FirstNonString(elems: seq<Value>, k: int)
  {
    0 <= k < |elems| && !elems[k].Str? && forall j :: 0 <= j < k ==> elems[j].Str?
  }

  /** OptionalStringArrayParam: absent or nil gives an empty slice; a []string
      is returned as is; a []any is copied element by element and must hold
      only strings; anything else is an error. Every error comes with an empty
      slice. */
  method OptionalStringArrayParam(args: Arguments, p: string) returns (strs: seq<string>, err: Option<string>)
    ensures err.Some? ==> strs == []
    ensures p !in args || args[p].Nil? ==> strs == [] && err == None
    ensures p in args && args[p].StringSlice? ==> strs == args[p].items && err == None
    ensures p in args && args[p].AnySlice? ==>
              var elems := args[p].elems;
              (err.None? <==> forall j :: 0 <= j < |elems| ==> elems[j].Str?)
              && (err.None? ==> |strs| == |elems| && forall j :: 0 <= j < |elems| ==> strs[j] == elems[j].s)
              && (err.Some? ==> exists k :: FirstNonString(elems, k)
                                  && err == Some("parameter " + p + " is not of type string, is " + TypeName(elems[k])))
    ensures p in args && !(args[p].Nil? || args[p].StringSlice? || args[p].AnySlice?) ==>
              err == Some("parameter " + p + " could not be coerced to []string, is " + TypeName(args[p]))
  {
    if p !in args {
      return [], None;
    }
    match args[p]
    case Nil =>
      return [], None;
    case StringSlice(items) =>
      return items, None;
    case AnySlice(elems) =>
      var slice := new string[|elems|];
      var i := 0;
      while i < |elems|
        invariant 0 <= i <= |elems|
        invariant forall j :: 0 <= j < i ==> elems[j].Str? && slice[j] == elems[j].s
      {
        if !elems[i].Str? {
          assert FirstNonString(elems, i);
          return [], Some("parameter " + p + " is not of type string, is " + TypeName(elems[i]));
        }
        slice[i] := elems[i].s;
        i := i + 1;
      }
      return slice[..], None;
    case _ =>
      return [], Some("parameter " + p + " could not be coerced to []string, is " + TypeName(args[p]));
  }
}
