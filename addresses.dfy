/** Address normalisation done by `NewBroker` and the lookup done by
    `Address()` (broker/kafka/kafka.go). */
module Addresses {

  /** The address used when no non-empty address is configured. */
  const DefaultAddress: string := "127.0.0.1:9092"

  /** The configured addresses with every empty string dropped, in their
      original order. */
  function NonEmpty(addrs: seq<string>): (r: seq<string>)
    ensures |r| <= |addrs|
    ensures forall k :: 0 <= k < |r| ==> r[k] != ""
  {
    if addrs == [] then []
    else if addrs[0] == "" then NonEmpty(addrs[1..])
    else [addrs[0]] + NonEmpty(addrs[1..])
  }

  /** The position that `addrs[i]` takes in `NonEmpty(addrs)`: the number of
      non-empty addresses before it. */
  function Rank(addrs: seq<string>, i: nat): nat
    requires i <= |addrs|
  {
    |NonEmpty(addrs[..i])|
  }

  /** The address list a constructed broker stores: the non-empty inputs, or
      the single default address when there are none. */
  function Normalized(addrs: seq<string>): (r: seq<string>)
    ensures r != []
    ensures forall k :: 0 <= k < |r| ==> r[k] != ""
  {
    var kept := NonEmpty(addrs);
    if kept == [] then [DefaultAddress] else kept
  }

  /** What `Address()` answers for a stored address list. */
  function FirstAddress(addrs: seq<string>): string
  {
    if |addrs| > 0 then addrs[0] else DefaultAddress
  }

  /** Filtering distributes over concatenation. */
  lemma {:induction false} NonEmptyAppend(a: seq<string>, b: seq<string>)
    ensures NonEmpty(a + b) == NonEmpty(a) + NonEmpty(b)
  {
    if a == [] {
      assert a + b == b;
    } else {
      assert (a + b)[0] == a[0];
      assert (a + b)[1..] == a[1..] + b;
      NonEmptyAppend(a[1..], b);
    }
  }

  /** Every non-empty input address is kept, at position `Rank(addrs, i)`. */
  lemma KeptAt(addrs: seq<string>, i: nat)
    requires i < |addrs| && addrs[i] != ""
    ensures Rank(addrs, i) < |NonEmpty(addrs)|
    ensures NonEmpty(addrs)[Rank(addrs, i)] == addrs[i]
  {
    assert addrs == addrs[..i] + ([addrs[i]] + addrs[i + 1..]);
    NonEmptyAppend(addrs[..i], [addrs[i]] + addrs[i + 1..]);
    assert ([addrs[i]] + addrs[i + 1..])[1..] == addrs[i + 1..];
  }

  /** Each input address moves the rank on by one exactly when it is kept. */
  lemma RankNext(addrs: seq<string>, i: nat)
    requires i < |addrs|
    ensures Rank(addrs, i + 1) == Rank(addrs, i) + (if addrs[i] == "" then 0 else 1)
  {
    assert addrs[..i + 1] == addrs[..i] + [addrs[i]];
    NonEmptyAppend(addrs[..i], [addrs[i]]);
  }

  /** Ranks never decrease along the input. */
  lemma RankMonotone(addrs: seq<string>, i: nat, j: nat)
    requires i <= j <= |addrs|
    ensures Rank(addrs, i) <= Rank(addrs, j)
  {
    assert addrs[..j] == addrs[..i] + addrs[i..j];
    NonEmptyAppend(addrs[..i], addrs[i..j]);
  }

  /** Two non-empty input addresses are stored in the order in which they
      were given. */
  lemma KeptInOrder(addrs: seq<string>, i: nat, j: nat)
    requires i < j < |addrs| && addrs[i] != "" && addrs[j] != ""
    ensures Rank(addrs, i) < Rank(addrs, j) < |NonEmpty(addrs)|
    ensures NonEmpty(addrs)[Rank(addrs, i)] == addrs[i]
    ensures NonEmpty(addrs)[Rank(addrs, j)] == addrs[j]
  {
    RankNext(addrs, i);
    RankMonotone(addrs, i + 1, j);
    KeptAt(addrs, i);
    KeptAt(addrs, j);
  }

  /** Every kept address comes from a non-empty input address whose rank is
      its position: the filter keeps nothing else. */
  lemma {:induction false} KeptFrom(addrs: seq<string>, k: nat)
    requires k < |NonEmpty(addrs)|
    ensures exists i :: 0 <= i < |addrs| && addrs[i] != "" && Rank(addrs, i) == k && NonEmpty(addrs)[k] == addrs[i]
  {
    if addrs[0] == "" {
      KeptFrom(addrs[1..], k);
      var j :| 0 <= j < |addrs[1..]| && addrs[1..][j] != "" && Rank(addrs[1..], j) == k && NonEmpty(addrs[1..])[k] == addrs[1..][j];
      RankStep(addrs, j + 1);
    } else if k == 0 {
      assert Rank(addrs, 0) == 0 by { assert addrs[..0] == []; }
    } else {
      KeptFrom(addrs[1..], k - 1);
      var j :| 0 <= j < |addrs[1..]| && addrs[1..][j] != "" && Rank(addrs[1..], j) == k - 1 && NonEmpty(addrs[1..])[k - 1] == addrs[1..][j];
      RankStep(addrs, j + 1);
    }
  }

  /** Ranks in `addrs` and in its tail differ by whether the head is kept. */
  lemma RankStep(addrs: seq<string>, i: nat)
    requires 1 <= i <= |addrs|
    ensures Rank(addrs, i) == Rank(addrs[1..], i - 1) + (if addrs[0] == "" then 0 else 1)
  {
    assert addrs[..i] == [addrs[0]] + addrs[1..][..i - 1];
    NonEmptyAppend([addrs[0]], addrs[1..][..i - 1]);
  }

  /** An address is stored exactly when it is a non-empty input address. */
  lemma {:induction false} NonEmptyMembers(addrs: seq<string>, x: string)
    ensures x in NonEmpty(addrs) <==> x in addrs && x != ""
  {
    if addrs != [] {
      NonEmptyMembers(addrs[1..], x);
      assert addrs == [addrs[0]] + addrs[1..];
    }
  }

  /** With no non-empty input address (in particular with no input at all)
      the stored list is exactly the default address. */
  lemma {:induction false} AllEmptyGivesDefault(addrs: seq<string>)
    requires forall j :: 0 <= j < |addrs| ==> addrs[j] == ""
    ensures NonEmpty(addrs) == []
    ensures Normalized(addrs) == [DefaultAddress]
    ensures FirstAddress(Normalized(addrs)) == DefaultAddress
  {
    if addrs != [] {
      AllEmptyGivesDefault(addrs[1..]);
    }
  }

  /** With at least one non-empty input address the stored list is exactly
      the non-empty inputs. */
  lemma SomeNonEmptyIsKept(addrs: seq<string>, i: nat)
    requires i < |addrs| && addrs[i] != ""
    ensures Normalized(addrs) == NonEmpty(addrs)
  {
    KeptAt(addrs, i);
  }

  /** `Address()` of a constructed broker is the first non-empty configured
      address. */
  lemma {:induction false} AddressIsFirstNonEmpty(addrs: seq<string>, i: nat)
    requires i < |addrs| && addrs[i] != ""
    requires forall j :: 0 <= j < i ==> addrs[j] == ""
    ensures FirstAddress(Normalized(addrs)) == addrs[i]
  {
    KeptAt(addrs, i);
    AllEmptyGivesDefault(addrs[..i]);
  }

  /** The loop of `NewBroker` that builds `cAddrs`, then the default. */
  method NormalizeAddresses(addrs: seq<string>) returns (cAddrs: seq<string>)
    ensures cAddrs == Normalized(addrs)
  {
    cAddrs := [];
    var i := 0;
    while i < |addrs|
      invariant 0 <= i <= |addrs|
      invariant cAddrs == NonEmpty(addrs[..i])
    {
      var addr := addrs[i];
      assert addrs[..i + 1] == addrs[..i] + [addr];
      NonEmptyAppend(addrs[..i], [addr]);
      i := i + 1;
      if |addr| == 0 {
        continue;
      }
      cAddrs := cAddrs + [addr];
    }
    assert addrs[..i] == addrs;
    if |cAddrs| == 0 {
      cAddrs := [DefaultAddress];
    }
  }
}
