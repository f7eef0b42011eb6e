/**
 * The marketplace region table that both clients' constructors encode as an
 * if/else chain: for each of the ten region codes the PA-API host and the AWS
 * region that requests to it are signed for. Unknown codes fall back to the
 * United States entry.
 */
module Regions {

  datatype Endpoint = Endpoint(host: string, awsRegion: string)

  const Table: map<string, Endpoint> := map[
    "com" := Endpoint("webservices.amazon.com", "us-east-1"),
    "co.uk" := Endpoint("webservices.amazon.co.uk", "eu-west-1"),
    "de" := Endpoint("webservices.amazon.de", "eu-west-1"),
    "fr" := Endpoint("webservices.amazon.fr", "eu-west-1"),
    "it" := Endpoint("webservices.amazon.it", "eu-west-1"),
    "es" := Endpoint("webservices.amazon.es", "eu-west-1"),
    "ca" := Endpoint("webservices.amazon.ca", "us-east-1"),
    "com.au" := Endpoint("webservices.amazon.com.au", "us-west-2"),
    "co.jp" := Endpoint("webservices.amazon.co.jp", "ap-northeast-1"),
    "in" := Endpoint("webservices.amazon.in", "ap-south-1")
  ]

  /** The entry used for any code the table does not know. */
  const UsEndpoint := Endpoint("webservices.amazon.com", "us-east-1")

  /**
   * The endpoint for a region code. The host is always the PA-API host of the
   * code's own store (the US store for an unknown code), and it is signed for
   * one of five AWS regions.
   */
  function Resolve(code: string): (e: Endpoint)
    ensures code !in Table ==> e == Table["com"]
    ensures e.host == "webservices.amazon." + (if code in Table then code else "com")
    ensures e.awsRegion in {"us-east-1", "eu-west-1", "us-west-2", "ap-northeast-1", "ap-south-1"}
    ensures e in Table.Values
  {
    if code in Table then
      TableEntry(code);
      Table[code]
    else
      assert Table["com"] == UsEndpoint;
      UsEndpoint
  }

  /** Each entry's host is the PA-API host of its own code, signed for one of the five regions. */
  lemma TableEntry(code: string)
    requires code in Table
    ensures Table[code].host == HostPrefix + code
    ensures Table[code].awsRegion in {"us-east-1", "eu-west-1", "us-west-2", "ap-northeast-1", "ap-south-1"}
  {
    assert code in {"com", "co.uk", "de", "fr", "it", "es", "ca", "com.au", "co.jp", "in"};
  }

  /** Every host is a single line of text. */
  lemma HostIsOneLine(code: string)
    ensures '\n' !in Resolve(code).host
  {
    var store := if code in Table then code else "com";
    assert Resolve(code).host == HostPrefix + store;
    assert '\n' !in store by {
      if code in Table {
        CodesAreOneLine(code);
      }
    }
    assert '\n' !in HostPrefix;
  }

  const HostPrefix := "webservices.amazon."

  /** A store `www.amazon.<code>` and the host of the same code differ only in their first label. */
  lemma StoreAndHost(code: string)
    ensures "webservices." + ("www.amazon." + code)[4..] == HostPrefix + code
  {
    assert ("www.amazon." + code)[4..] == "amazon." + code;
    assert "webservices." + ("amazon." + code) == HostPrefix + code;
  }

  /** No region code in the table holds a newline. */
  lemma CodesAreOneLine(code: string)
    requires code in Table
    ensures '\n' !in code
  {
    assert code in {"com", "co.uk", "de", "fr", "it", "es", "ca", "com.au", "co.jp", "in"};
  }
}
