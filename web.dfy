/** The browser and HTTP values the handlers read and build: URLs with their
    search parameters, and the outcome of a `fetch`. */
module Web {
  import opened Wrappers

  /** What `new URL(s)` gives: a parse failure (it throws), or the URL's
      `protocol` and the first value of each search parameter by name. */
  datatype ParsedUrl = Unparseable | Parsed(protocol: string, searchParams: map<string, string>)

  /** `searchParams.get(name)`: the value, or `null` when the name is absent. */
  function GetParam(params: map<string, string>, name: string): Option<string> {
    if name in params then Some(params[name]) else None
  }

  /** The JavaScript truth of an optional string: present and non-empty. */
  predicate Truthy(o: Option<string>) {
    o.Some? && o.value != ""
  }

  /** `a || b` on strings: `a` when it is present and non-empty, else `b`. */
  function OrElse(a: Option<string>, b: string): (r: string)
    ensures Truthy(a) ==> r == a.value
    ensures !Truthy(a) ==> r == b
  {
    if a.Some? && a.value != "" then a.value else b
  }

  /** A URL under construction: a base and its search parameters, in order. */
  datatype Url = Url(base: string, query: seq<(string, string)>)

  /** `URLSearchParams.get` on a list of pairs: the first value under `name`. */
  function Lookup(query: seq<(string, string)>, name: string): (r: Option<string>)
    ensures r.None? <==> forall i :: 0 <= i < |query| ==> query[i].0 != name
    ensures r.Some? ==> exists i :: 0 <= i < |query| && query[i] == (name, r.value)
  {
    if query == [] then None
    else if query[0].0 == name then Some(query[0].1)
    else
      var r := Lookup(query[1..], name);
      LookupShift(query, name, r);
      r
  }

  lemma LookupShift(query: seq<(string, string)>, name: string, r: Option<string>)
    requires query != []
    requires r.Some? ==> exists i :: 0 <= i < |query[1..]| && query[1..][i] == (name, r.value)
    ensures r.Some? ==> exists i :: 0 <= i < |query| && query[i] == (name, r.value)
  {
    if r.Some? {
      var i :| 0 <= i < |query[1..]| && query[1..][i] == (name, r.value);
      assert query[i + 1] == (name, r.value);
    }
  }

  /** The pairs of `query` whose name is not `name`, in order. */
  function RemoveParam(query: seq<(string, string)>, name: string): (r: seq<(string, string)>)
    ensures forall i :: 0 <= i < |r| ==> r[i].0 != name
    ensures |r| <= |query|
  {
    if query == [] then []
    else if query[0].0 == name then RemoveParam(query[1..], name)
    else [query[0]] + RemoveParam(query[1..], name)
  }

  /** `URLSearchParams.set(name, value)`: the first pair under `name` takes the
      new value and the later ones are deleted; with no such pair the new pair
      is appended. */
  function SetParam(query: seq<(string, string)>, name: string, value: string): (r: seq<(string, string)>)
    ensures Lookup(r, name) == Some(value)
    ensures forall other :: other != name ==> Lookup(r, other) == Lookup(query, other)
    ensures Lookup(query, name).None? ==> r == query + [(name, value)]
  {
    if query == [] then [(name, value)]
    else if query[0].0 == name then
      var rest := RemoveParam(query[1..], name);
      SetFirstKeepsOthers(query, name, value);
      [(name, value)] + rest
    else
      var rest := SetParam(query[1..], name, value);
      assert ([query[0]] + rest)[1..] == rest;
      [query[0]] + rest
  }

  lemma SetFirstKeepsOthers(query: seq<(string, string)>, name: string, value: string)
    requires query != [] && query[0].0 == name
    ensures forall other :: other != name ==>
      Lookup([(name, value)] + RemoveParam(query[1..], name), other) == Lookup(query, other)
  {
    var rest := RemoveParam(query[1..], name);
    forall other | other != name
      ensures Lookup([(name, value)] + rest, other) == Lookup(query, other)
    {
      LookupRemove(query[1..], name, other);
      assert ([(name, value)] + rest)[1..] == rest;
    }
  }

  lemma {:induction false} LookupRemove(query: seq<(string, string)>, name: string, other: string)
    requires other != name
    ensures Lookup(RemoveParam(query, name), other) == Lookup(query, other)
  {
    if query != [] {
      LookupRemove(query[1..], name, other);
      if query[0].0 != name {
        assert ([query[0]] + RemoveParam(query[1..], name))[1..] == RemoveParam(query[1..], name);
      }
    }
  }

  function SetUrlParam(url: Url, name: string, value: string): Url {
    url.(query := SetParam(url.query, name, value))
  }

  /** What a `fetch` call gives the caller: a network failure (the promise
      rejects), or a response with its `ok` flag, its status, and its body read
      as JSON (`Err` when `response.json()` rejects). */
  datatype FetchOutcome<B> =
    | NetworkError(message: string)
    | HttpResponse(ok: bool, status: nat, body: Result<B, string>)
}
