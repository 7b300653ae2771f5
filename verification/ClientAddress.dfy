/** The client address every rate-limit identity is built from. */
module ClientAddress {
  import opened Common
  import opened RateLimit
  import opened Strings

  /** The non-empty trimmed entries of a forwarding chain, in order. */
  function Entries(parts: seq<string>): (r: seq<string>)
    ensures |r| <= |parts|
  {
    if parts == [] then []
    else (if Trim(parts[0]) == [] then [] else [Trim(parts[0])]) + Entries(parts[1..])
  }

  function Direct(host: Option<string>): string {
    if host.None? || host.value == [] then "unknown" else host.value
  }

  function ClientIp(host: Option<string>, trustedProxies: int, forwarded: Option<string>): string {
    if trustedProxies <= 0 || forwarded.None? || forwarded.value == [] then Direct(host)
    else
      var parts := Entries(Split(forwarded.value, ','));
      if |parts| < trustedProxies then Direct(host) else parts[|parts| - trustedProxies]
  }

  lemma {:induction false} EntriesOfConcat(a: seq<string>, b: seq<string>)
    ensures Entries(a + b) == Entries(a) + Entries(b)
  {
    if a == [] {
      assert a + b == b;
    } else {
      assert (a + b)[1..] == a[1..] + b;
      EntriesOfConcat(a[1..], b);
    }
  }

  lemma {:induction false} EntriesOfAppended(raw: seq<string>)
    requires forall p :: p in raw ==> Trim(p) != []
    ensures |Entries(raw)| == |raw|
    ensures raw != [] ==> Entries(raw)[0] == Trim(raw[0])
  {
    if raw != [] {
      EntriesOfAppended(raw[1..]);
    }
  }

  /** What a chain of proxies appends: one comma-free entry each, with any spacing around it. */
  predicate Appended(raw: seq<string>) {
    raw != [] && forall p :: p in raw ==> ',' !in p && Trim(p) != []
  }

  /**
   Whatever a client sends in front, the address is the entry the outermost trusted proxy appended.
   */
  lemma {:induction false} PrefixCannotChangeTheAddress(host: Option<string>, prefix: string, raw: seq<string>)
    requires Appended(raw)
    ensures ClientIp(host, |raw|, Some(prefix + "," + Join(raw, ','))) == Trim(raw[0])
    ensures ClientIp(host, |raw|, Some(Join(raw, ','))) == Trim(raw[0])
  {
    var trusted := Join(raw, ',');
    SplitOfConcat(prefix, trusted, ',');
    SplitOfJoin(raw, ',');
    EntriesOfConcat(Split(prefix, ','), raw);
    EntriesOfAppended(raw);
    assert trusted != [] by {
      assert raw[0] != [];
    }
  }

  function NotBlank(): string -> nat {
    (part: string) => if IsBlank(part) then 0 else 1
  }

  lemma {:induction false} BlankExactly(s: string)
    ensures Trim(s) == [] <==> IsBlank(s)
  {
    var left, right := TrimExactly(s);
    if Trim(s) != [] {
      assert s[|left|] == Trim(s)[0];
    }
  }

  predicate IsEntry(part: string) {
    !IsBlank(part)
  }

  /** The entries are the parts that are not blank, trimmed, in order. */
  lemma {:induction false} EntriesExactly(parts: seq<string>)
    ensures Entries(parts) == Map(Filter(parts, IsEntry), Trim)
    ensures |Entries(parts)| == Total(parts, NotBlank())
  {
    if parts != [] {
      BlankExactly(parts[0]);
      EntriesExactly(parts[1..]);
    }
  }

  /** No proxy is trusted, or the chain did not pass through all that are. */
  predicate IsUntrusted(n: int, header: Option<string>) {
    n <= 0 || header.None? || Total(Split(header.value, ','), NotBlank()) < n
  }

  /** Without a trusted chain the address is the direct peer's, and unknown only when there is none. */
  lemma {:induction false} DirectPeerIsKept(host: Option<string>, n: int, header: Option<string>)
    requires IsUntrusted(n, header)
    ensures ClientIp(host, n, header) == if host.Some? && host.value != [] then host.value else "unknown"
  {
    if header.Some? { EntriesExactly(Split(header.value, ',')); }
  }

  /** So two clients that reach the service directly share a bucket of an endpoint only with the same address. */
  lemma {:induction false} PeersShareNoBucket(a: string, b: string, e: Endpoint, f: Endpoint, n: int,
                                              x: Option<string>, y: Option<string>)
    requires a != [] && b != [] && IsUntrusted(n, x) && IsUntrusted(n, y)
    ensures KeyFor(e, ClientIp(Some(a), n, x)) == KeyFor(f, ClientIp(Some(b), n, y)) <==> e == f && a == b
  {
    DirectPeerIsKept(Some(a), n, x);
    DirectPeerIsKept(Some(b), n, y);
    if KeyFor(e, a) == KeyFor(f, b) { EndpointsShareNoBucket(e, a, f, b); }
  }

  lemma {:induction false} BlankHeaderIsUntrusted(n: int)
    requires n > 0
    ensures Total(Split([], ','), NotBlank()) < n
  {
    var parts: seq<string> := [""];
    assert Split([], ',') == parts && parts[1..] == [];
  }

  /** With one, it is the entry that has exactly n - 1 entries to its right. */
  lemma {:induction false} AddressComesFromTheChain(host: Option<string>, n: int, header: Option<string>)
    returns (before: seq<string>, after: seq<string>)
    requires !IsUntrusted(n, header)
    ensures |after| == n - 1
    ensures Map(Filter(Split(header.value, ','), IsEntry), Trim) == before + [ClientIp(host, n, header)] + after
  {
    EntriesExactly(Split(header.value, ','));
    if header.value == [] { BlankHeaderIsUntrusted(n); }
    var parts := Entries(Split(header.value, ','));
    before, after := parts[..|parts| - n], parts[|parts| - n + 1..];
    Around(parts, |parts| - n);
  }
}
