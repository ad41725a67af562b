/**
 * The query string the jobs and invoices pages send: a `URLSearchParams` filled by one
 * `params.set` per non-empty filter field, in a fixed order.
 */
module SearchParams {

  datatype Filter = Filter(clientInvoiceNo: string, fromDate: string, toDate: string)

  type Params = seq<(string, string)>

  predicate HasName(params: Params, name: string)
  {
    exists i :: 0 <= i < |params| && params[i].0 == name
  }

  /** The pairs of `params` whose name is not `name`. */
  function Drop(params: Params, name: string): (r: Params)
    ensures !HasName(r, name)
  {
    if params == [] then []
    else if params[0].0 == name then Drop(params[1..], name)
    else [params[0]] + Drop(params[1..], name)
  }

  /**
   * `URLSearchParams.set`: the first pair with this name takes the new value and later ones are
   * removed; a name not present yet is appended.
   */
  function Set(params: Params, name: string, value: string): Params
  {
    if params == [] then [(name, value)]
    else if params[0].0 == name then [(name, value)] + Drop(params[1..], name)
    else [params[0]] + Set(params[1..], name, value)
  }

  /** Setting a name that is not present appends the pair. */
  lemma {:induction false} SetNewNameAppends(params: Params, name: string, value: string)
    requires !HasName(params, name)
    ensures Set(params, name, value) == params + [(name, value)]
  {
    if params != [] {
      SetNewNameAppends(params[1..], name, value);
    }
  }

  /** Position of a parameter name in the fixed order; 3 for any other name. */
  function Rank(name: string): nat
  {
    if name == "clientInvoiceNo" then 0
    else if name == "fromDate" then 1
    else if name == "toDate" then 2
    else 3
  }

  /** The filter's value for a parameter name. */
  function FieldValue(f: Filter, name: string): string
  {
    if name == "clientInvoiceNo" then f.clientInvoiceNo
    else if name == "fromDate" then f.fromDate
    else if name == "toDate" then f.toDate
    else ""
  }

  /** The non-empty fields as name/value pairs, in the order the page sets them. */
  function NonEmptyFields(f: Filter): Params
  {
    (if f.clientInvoiceNo != "" then [("clientInvoiceNo", f.clientInvoiceNo)] else []) +
    (if f.fromDate != "" then [("fromDate", f.fromDate)] else []) +
    (if f.toDate != "" then [("toDate", f.toDate)] else [])
  }

  /** The `queryFn`'s three guarded `params.set` calls. */
  method BuildParams(f: Filter) returns (params: Params)
    ensures params == NonEmptyFields(f)
  {
    params := [];
    if f.clientInvoiceNo != "" {
      SetNewNameAppends(params, "clientInvoiceNo", f.clientInvoiceNo);
      params := Set(params, "clientInvoiceNo", f.clientInvoiceNo);
    }
    if f.fromDate != "" {
      SetNewNameAppends(params, "fromDate", f.fromDate);
      params := Set(params, "fromDate", f.fromDate);
    }
    if f.toDate != "" {
      SetNewNameAppends(params, "toDate", f.toDate);
      params := Set(params, "toDate", f.toDate);
    }
  }

  /**
   * Every parameter carries its field's non-empty value, names come in the fixed order, and a
   * name is present exactly when its field is non-empty; an all-empty filter sets nothing.
   */
  lemma NonEmptyFieldsSpec(f: Filter)
    ensures var params := NonEmptyFields(f);
      && (forall i :: 0 <= i < |params| ==> params[i].1 != "" && params[i].1 == FieldValue(f, params[i].0))
      && (forall i, j :: 0 <= i < j < |params| ==> Rank(params[i].0) < Rank(params[j].0))
      && (forall i :: 0 <= i < |params| ==> Rank(params[i].0) < 3)
      && (HasName(params, "clientInvoiceNo") <==> f.clientInvoiceNo != "")
      && (HasName(params, "fromDate") <==> f.fromDate != "")
      && (HasName(params, "toDate") <==> f.toDate != "")
      && (f == Filter("", "", "") <==> params == [])
  {
    var params := NonEmptyFields(f);
    var a := if f.clientInvoiceNo != "" then 1 else 0;
    var b := a + if f.fromDate != "" then 1 else 0;
    if f.clientInvoiceNo != "" {
      assert params[0].0 == "clientInvoiceNo";
    }
    if f.fromDate != "" {
      assert params[a].0 == "fromDate";
    }
    if f.toDate != "" {
      assert params[b].0 == "toDate";
    }
  }

  /**
   * `params.toString()`, given the form-urlencoding of names and values as `encode`:
   * the pairs as `name=value`, joined by `&`.
   */
  function QueryString(params: Params, encode: string -> string): (q: string)
    ensures params == [] <==> q == ""
  {
    if params == [] then ""
    else
      var pair := encode(params[0].0) + "=" + encode(params[0].1);
      if |params| == 1 then pair else pair + "&" + QueryString(params[1..], encode)
  }

  /**
   * The URL a filtered list page fetches, `${endpoint}?${params.toString()}`; the jobs page
   * uses "/api/jobs" and the invoices page "/api/bills".
   */
  method FilterUrl(endpoint: string, f: Filter, encode: string -> string) returns (url: string)
    ensures url == endpoint + "?" + QueryString(NonEmptyFields(f), encode)
    ensures f == Filter("", "", "") ==> url == endpoint + "?"
    ensures f != Filter("", "", "") ==> |url| > |endpoint| + 1
  {
    var params := BuildParams(f);
    url := endpoint + "?" + QueryString(params, encode);
  }
}
