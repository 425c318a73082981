/**
 * The value-level pieces of the response checks: substring search over the
 * raw body, the first offending entry of BodyShouldHave / BodyShouldNotHave,
 * and the cookie map captured from a response.
 */
module Checks {
  import opened Descriptors

  /** `sub` occurs in `s` starting at position `i`. */
  predicate OccursAt(s: string, sub: string, i: nat) {
    i + |sub| <= |s| && s[i..i + |sub|] == sub
  }

  /** Substring search, as Go's strings.Contains: the empty string occurs everywhere. */
  predicate Contains(s: string, sub: string)
    ensures Contains(s, sub) ==> |sub| <= |s|
    ensures sub <= s ==> Contains(s, sub)
  {
    assert sub <= s ==> OccursAt(s, sub, 0);
    exists i | 0 <= i <= |s| :: OccursAt(s, sub, i)
  }

  /**
   * The first index whose entry is an offence: an entry that is absent from
   * the body when `forbidden` is false (BodyShouldHave), or one that is
   * present when `forbidden` is true (BodyShouldNotHave).
   */
  function FirstOffending(body: string, entries: seq<string>, forbidden: bool): (r: Option<nat>)
    ensures r.Some? ==> r.value < |entries| && Contains(body, entries[r.value]) == forbidden
    ensures r.Some? ==> forall j :: 0 <= j < r.value ==> Contains(body, entries[j]) != forbidden
    ensures r.None? <==> forall j :: 0 <= j < |entries| ==> Contains(body, entries[j]) != forbidden
  {
    if entries == [] then None
    else if Contains(body, entries[0]) == forbidden then Some(0)
    else match FirstOffending(body, entries[1..], forbidden)
      case None => None
      case Some(i) => Some(i + 1)
  }

  /**
   * The scan over BodyShouldHave (`forbidden` false) or BodyShouldNotHave
   * (`forbidden` true): stops at the first offending entry.
   */
  method Scan(body: string, entries: seq<string>, forbidden: bool) returns (r: Option<nat>)
    ensures r == FirstOffending(body, entries, forbidden)
  {
    var i := 0;
    while i < |entries|
      invariant 0 <= i <= |entries|
      invariant forall j :: 0 <= j < i ==> Contains(body, entries[j]) != forbidden
    {
      if Contains(body, entries[i]) == forbidden {
        return Some(i);
      }
      i := i + 1;
    }
    return None;
  }

  /** The cookie map built by inserting every cookie in order, so later duplicates overwrite earlier ones. */
  function CookieJar(cookies: seq<Cookie>): (jar: map<string, string>)
    ensures forall i :: 0 <= i < |cookies| ==> cookies[i].name in jar
    ensures forall name :: name in jar ==> exists i :: 0 <= i < |cookies| && cookies[i].name == name
  {
    if cookies == [] then map[]
    else
      var last := cookies[|cookies| - 1];
      CookieJar(cookies[..|cookies| - 1])[last.name := last.value]
  }

  /** Inserts the cookies one by one into a fresh map, as the capture loop of a run does. */
  method CollectCookies(received: seq<Cookie>) returns (jar: map<string, string>)
    ensures jar == CookieJar(received)
  {
    jar := map[];
    var k := 0;
    while k < |received|
      invariant 0 <= k <= |received|
      invariant jar == CookieJar(received[..k])
    {
      assert received[..k + 1][..k] == received[..k];
      jar := jar[received[k].name := received[k].value];
      k := k + 1;
    }
    assert received[..|received|] == received;
  }

  /** What the Cookies field holds once capture has run: empty when there is no response. */
  function Captured(response: Option<HttpResponse>): map<string, string> {
    if response.Some? then CookieJar(response.value.cookies) else map[]
  }

  /** Every name maps to the value of the last cookie carrying that name. */
  lemma {:induction false} CookieJarLastWins(cookies: seq<Cookie>, i: nat)
    requires i < |cookies|
    requires forall j :: i < j < |cookies| ==> cookies[j].name != cookies[i].name
    ensures cookies[i].name in CookieJar(cookies)
    ensures CookieJar(cookies)[cookies[i].name] == cookies[i].value
  {
    if i < |cookies| - 1 {
      var prefix := cookies[..|cookies| - 1];
      forall j | i < j < |prefix| ensures prefix[j].name != prefix[i].name {
        assert prefix[j] == cookies[j];
      }
      CookieJarLastWins(prefix, i);
    }
  }

  /** Two cookies named "sid": only the later value is kept. */
  lemma DuplicateSidKeepsLater()
    ensures CookieJar([Cookie("sid", "old"), Cookie("sid", "new")]) == map["sid" := "new"]
  {
    var cs := [Cookie("sid", "old"), Cookie("sid", "new")];
    assert cs[..1] == [Cookie("sid", "old")];
    assert cs[..1][..0] == [];
  }

  /** The empty string is contained in every body, so an empty BodyShouldHave entry never fails. */
  lemma ContainsEmpty(s: string)
    ensures Contains(s, "")
  {
    assert OccursAt(s, "", 0);
  }

  /** BodyShouldHave ["foo", "bar"] against the body "foo" fails at index 1, naming "bar". */
  lemma SecondEntryMissing()
    ensures FirstOffending("foo", ["foo", "bar"], false) == Some(1)
  {
    assert OccursAt("foo", "foo", 0);
    assert !Contains("foo", "bar") by {
      forall i | 0 <= i <= 3 ensures !OccursAt("foo", "bar", i) {
        if i == 0 { assert "foo"[0] != "bar"[0]; }
      }
    }
  }
}
