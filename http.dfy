/** The outgoing GET request that Run builds (webmetric.go:52-63): its URL and
    its header map, which the header loop fills in place. */
module Http {
  import opened Wrappers
  import opened Analysis

  /** A URL as url.Parse returns it; its structure is not modelled. */
  datatype Url = Url(text: string)

  /** textproto.CanonicalMIMEHeaderKey, which http.Header.Set applies to keys. */
  type Canonicalizer = string -> string

  /** http.Header, which like every Go map may be nil. A header's value list
      is reduced to the single value Header.Set stores. */
  datatype HeaderMap = Nil | Made(entries: map<string, string>)

  /** What the HTTP client is handed: a copy of the request's fields. */
  datatype HttpRequest = HttpRequest(verb: string, url: Url, header: map<string, string>)

  function Lookup(m: map<string, string>, k: string): Option<string>
  {
    if k in m then Some(m[k]) else None
  }

  /** The header map after Header.Set for each header in order. */
  function SetAll(m: map<string, string>, headers: seq<WebMetricHeader>, canon: Canonicalizer): map<string, string>
  {
    if headers == [] then m
    else
      var last := headers[|headers| - 1];
      SetAll(m, headers[..|headers| - 1], canon)[canon(last.key) := last.value]
  }

  /** Reference for set semantics: the value of the last header whose key
      canonicalises to k. */
  function LastValue(headers: seq<WebMetricHeader>, k: string, canon: Canonicalizer): (r: Option<string>)
    ensures r.Some? <==> exists i :: 0 <= i < |headers| && canon(headers[i].key) == k
    ensures r.Some? ==>
              exists i :: 0 <= i < |headers| && canon(headers[i].key) == k && headers[i].value == r.value &&
                          forall j :: i < j < |headers| ==> canon(headers[j].key) != k
  {
    if headers == [] then None
    else
      var n := |headers| - 1;
      if canon(headers[n].key) == k then Some(headers[n].value)
      else
        var r := LastValue(headers[..n], k, canon);
        assert forall i :: 0 <= i < n ==> headers[..n][i] == headers[i];
        r
  }

  /** Later duplicates overwrite earlier ones: each key ends up with the value
      of its last header, and keys no header names keep their old value. */
  lemma {:induction false} LastWins(m: map<string, string>, headers: seq<WebMetricHeader>, canon: Canonicalizer, k: string)
    ensures Lookup(SetAll(m, headers, canon), k) ==
              if LastValue(headers, k, canon).Some? then LastValue(headers, k, canon) else Lookup(m, k)
  {
    if headers != [] {
      LastWins(m, headers[..|headers| - 1], canon, k);
    }
  }

  class Request {
    var verb: string
    var url: Option<Url>
    var header: HeaderMap

    /** A request literal such as &http.Request{Method: verb}. */
    constructor (verb: string, header: HeaderMap)
      ensures this.verb == verb && url == None && this.header == header
    {
      this.verb := verb;
      url := None;
      this.header := header;
    }

    /** Header.Set: stores the value under the canonical key, replacing any
        previous value; on a nil map Go panics instead. */
    method SetHeader(key: string, value: string, canon: Canonicalizer) returns (panicked: bool)
      modifies this
      ensures panicked <==> old(header) == Nil
      ensures header == if panicked then old(header) else Made(old(header).entries[canon(key) := value])
      ensures verb == old(verb) && url == old(url)
    {
      panicked := header == Nil;
      if !panicked {
        header := Made(header.entries[canon(key) := value]);
      }
    }

    function Snapshot(): HttpRequest
      reads this
      requires url.Some?
    {
      HttpRequest(verb, url.value, if header.Made? then header.entries else map[])
    }
  }

  /** Lines 52-54 and 61-63 as written: the request literal leaves Header nil,
      so the first Header.Set panics, and any configured header makes Run panic. */
  method ApplyHeadersAsWritten(headers: seq<WebMetricHeader>, canon: Canonicalizer) returns (panicked: bool)
    ensures panicked <==> headers != []
  {
    var request := new Request("GET", Nil);
    panicked := false;
    var i := 0;
    while i < |headers| && !panicked
      invariant 0 <= i <= |headers|
      invariant request.header == Nil
      invariant panicked <==> i > 0
    {
      panicked := request.SetHeader(headers[i].key, headers[i].value, canon);
      i := i + 1;
    }
  }

  /** One configured header is enough. */
  method HeaderPanicWitness() returns (panicked: bool)
    ensures panicked
  {
    panicked := ApplyHeadersAsWritten([WebMetricHeader("Authorization", "Bearer t0ken")], k => k);
  }
}
