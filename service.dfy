/**
 * The other side of a signed request: how the PA-API service recomputes the
 * Signature Version 4 signature from the request it receives. It reads the
 * timestamp and every signed header by case-insensitive name, hashes the body
 * it was sent, and signs the result with the same derived key. A request is
 * accepted when the signature in its Authorization header equals this one.
 */
module Service {
  import opened Wrappers
  import opened Js
  import opened Foreign
  import opened Http
  import SigV4

  /** The value of the first header whose name, lower-cased, is `name`. */
  function HeaderLookup(h: Props, name: string): (v: Option<string>)
    ensures v.Some? ==> exists i :: 0 <= i < |h| && LowerIs(h[i].0, name) && h[i].1 == v.value
    decreases |h|
  {
    if |h| == 0 then None
    else if LowerIs(h[0].0, name) then Some(h[0].1)
    else
      var v := HeaderLookup(h[1..], name);
      assert v.Some? ==> exists i :: 1 <= i < |h| && LowerIs(h[i].0, name) && h[i].1 == v.value by {
        if v.Some? {
          var j :| 0 <= j < |h[1..]| && LowerIs(h[1..][j].0, name) && h[1..][j].1 == v.value;
          assert h[j + 1] == h[1..][j];
        }
      }
      v
  }

  /** The first header whose lower-cased name matches supplies the value. */
  lemma {:induction false} LookupFirst(h: Props, i: nat, name: string)
    requires i < |h| && LowerIs(h[i].0, name)
    requires forall j :: 0 <= j < i ==> !LowerIs(h[j].0, name)
    ensures HeaderLookup(h, name) == Some(h[i].1)
    decreases i
  {
    if i > 0 {
      LookupFirst(h[1..], i - 1, name);
    }
  }

  /** One `name:value` line per signed header name. */
  function HeaderLines(h: Props, names: seq<string>): seq<string> {
    seq(|names|, i requires 0 <= i < |names| => names[i] + ":" + Str(HeaderLookup(h, names[i])))
  }

  /** A looked-up value avoids `c` when every header the name can match does. */
  lemma LookupAvoids(h: Props, name: string, c: char)
    requires forall i :: 0 <= i < |h| && LowerIs(h[i].0, name) ==> c !in h[i].1
    requires c !in "undefined"
    ensures c !in Str(HeaderLookup(h, name))
  {
  }

  /** A header appended under a name of another length cannot be what a lookup finds. */
  lemma AppendedLookupAvoids(h: Props, k: string, v: string, name: string, c: char)
    requires ValuesAvoid(h, c)
    requires |k| != |name| && c !in "undefined"
    ensures c !in Str(HeaderLookup(h + [(k, v)], name))
  {
    var h' := h + [(k, v)];
    assert forall i :: 0 <= i < |h'| && LowerIs(h'[i].0, name) ==> c !in h'[i].1 by {
      assert forall i :: 0 <= i < |h| ==> h'[i] == h[i];
    }
    LookupAvoids(h', name, c);
  }

  /** No header line holds `c` when neither the names nor the values looked up do. */
  lemma HeaderLinesAvoid(h: Props, names: seq<string>, c: char)
    requires c != ':' && Avoid(names, c)
    requires forall k :: 0 <= k < |names| ==> c !in Str(HeaderLookup(h, names[k]))
    ensures Avoid(HeaderLines(h, names), c)
  {
  }

  /** The canonical request the service builds over the headers named in `names`. */
  function CanonicalRequest(p: Primitives, r: Request, path: string, names: seq<string>): string {
    Join([r.httpMethod, path, "", Join(HeaderLines(r.headers, names), "\n") + "\n", Join(names, ";"), Sha256Hex(p, r.body)], "\n")
  }

  /** The signature the service expects of a request to `path` signed over `names`. */
  function ExpectedSignature(p: Primitives, secretKey: string, awsRegion: string, r: Request, path: string, names: seq<string>): string {
    var timestamp := Str(HeaderLookup(r.headers, "x-amz-date"));
    var stringToSign := SigV4.StringToSign(p, timestamp, awsRegion, CanonicalRequest(p, r, path, names));
    SigV4.CalculateSignature(p, secretKey, awsRegion, stringToSign, SigV4.DateStamp(timestamp))
  }

  /** The fields of the canonical request with the header block spliced in as lines. */
  function Fields(p: Primitives, r: Request, path: string, names: seq<string>): seq<string> {
    [r.httpMethod, path, ""] + HeaderLines(r.headers, names) + ["", Join(names, ";"), Sha256Hex(p, r.body)]
  }

  /**
   * The canonical request reads back into its fields, with one line per
   * listed header, when no field holds a newline.
   */
  lemma CanonicalRequestFields(p: Primitives, r: Request, path: string, names: seq<string>)
    requires |names| >= 1
    requires '\n' !in r.httpMethod && '\n' !in path && Avoid(names, '\n')
    requires forall k :: 0 <= k < |names| ==> '\n' !in Str(HeaderLookup(r.headers, names[k]))
    ensures Split(CanonicalRequest(p, r, path, names), '\n') == Fields(p, r, path, names)
    ensures |Fields(p, r, path, names)| == |names| + 6
  {
    CanonicalRequestFlat(p, r, path, names);
    FieldsAvoid(p, r, path, names);
    SplitJoin(Fields(p, r, path, names), '\n');
  }

  lemma CanonicalRequestFlat(p: Primitives, r: Request, path: string, names: seq<string>)
    requires |names| >= 1
    ensures CanonicalRequest(p, r, path, names) == Join(Fields(p, r, path, names), "\n")
  {
    var lines := HeaderLines(r.headers, names);
    var hash := Sha256Hex(p, r.body);
    var head := [r.httpMethod, path, ""];
    var rest := [Join(names, ";"), hash];
    assert [r.httpMethod, path, "", Join(lines, "\n") + "\n", Join(names, ";"), hash] == head + [Join(lines, "\n") + "\n"] + rest;
    JoinBlock(head, lines, rest, "\n");
    assert head + lines + [""] + rest == Fields(p, r, path, names);
  }

  lemma FieldsAvoid(p: Primitives, r: Request, path: string, names: seq<string>)
    requires '\n' !in r.httpMethod && '\n' !in path && Avoid(names, '\n')
    requires forall k :: 0 <= k < |names| ==> '\n' !in Str(HeaderLookup(r.headers, names[k]))
    ensures Avoid(Fields(p, r, path, names), '\n')
  {
    var lines := HeaderLines(r.headers, names);
    var hash := Sha256Hex(p, r.body);
    HeaderLinesAvoid(r.headers, names, '\n');
    JoinAvoids(names, ";", '\n');
    assert '\n' !in hash;
    AvoidAppend([r.httpMethod, path, ""], lines, '\n');
    AvoidAppend([r.httpMethod, path, ""] + lines, ["", Join(names, ";"), hash], '\n');
  }
}
