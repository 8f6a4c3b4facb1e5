/** The permission policy of one file (`validatePermissions`): a link-sharing
    reason first, at most once, then one external-share reason per non-owner
    permission whose address matches no allow-listed suffix, in permission
    order. `Reasons` is the specification, `ValidatePermissions` the loop. */
module Policy {
  import opened Strings
  import opened Drive

  /** `safeDomains.some(d => email.endsWith(d))` */
  function IsSafe(safeDomains: seq<string>, email: string): (r: bool)
    ensures r <==> exists k :: 0 <= k < |safeDomains| && EndsWith(email, safeDomains[k])
  {
    if |safeDomains| == 0 then false
    else EndsWith(email, safeDomains[0]) || IsSafe(safeDomains[1..], email)
  }

  /** `permissions.some(p => p.type === 'anyone')` */
  function AnyoneWithLink(ps: seq<Permission>): (r: bool)
    ensures r <==> exists k :: 0 <= k < |ps| && ps[k].kind == "anyone"
  {
    if |ps| == 0 then false
    else ps[0].kind == "anyone" || AnyoneWithLink(ps[1..])
  }

  /** `!p.emailAddress` is false: the address is present and not empty. */
  predicate HasEmail(p: Permission) {
    p.emailAddress.Some? && p.emailAddress.value != ""
  }

  /** The domain check reports `p`: not an owner, an address, and no
      allow-listed suffix matches it. */
  predicate Flagged(safeDomains: seq<string>, p: Permission) {
    p.role != "owner" && HasEmail(p) && !IsSafe(safeDomains, p.emailAddress.value)
  }

  function ExternalReason(p: Permission): Reason
    requires HasEmail(p)
  {
    ExternalShare(p.emailAddress.value, p.role)
  }

  /** The reasons of the domain check, one per flagged permission. */
  function ExternalShareReasons(safeDomains: seq<string>, ps: seq<Permission>): (r: seq<Reason>)
    ensures |r| <= |ps|
    ensures forall k :: 0 <= k < |r| ==> r[k].ExternalShare?
  {
    if |ps| == 0 then []
    else
      (if Flagged(safeDomains, ps[0]) then [ExternalReason(ps[0])] else [])
      + ExternalShareReasons(safeDomains, ps[1..])
  }

  /** The reasons of a file, in detection order. */
  function Reasons(settings: Settings, file: Item): (r: seq<Reason>)
    ensures !file.shared || file.permissions.None? ==> r == []
    ensures file.permissions.Some? ==> |r| <= 1 + |file.permissions.value|
    ensures LinkSharing in r <==>
      file.shared && file.permissions.Some? && AnyoneWithLink(file.permissions.value)
    ensures LinkSharing in r ==> r[0] == LinkSharing && LinkSharing !in r[1..]
  {
    if !file.shared || file.permissions.None? then []
    else
      var ps := file.permissions.value;
      var link := if AnyoneWithLink(ps) then [LinkSharing] else [];
      var external := ExternalShareReasons(settings.safeDomains, ps);
      assert forall k :: 0 <= k < |external| ==> external[k] != LinkSharing;
      link + external
  }

  /** `validatePermissions(file)`: builds the reasons with a loop over the
      permissions, pushing as it goes. */
  method ValidatePermissions(settings: Settings, file: Item) returns (errors: seq<Reason>)
    ensures errors == Reasons(settings, file)
  {
    if !file.shared || file.permissions.None? {
      return [];
    }
    var ps := file.permissions.value;
    errors := [];
    if AnyoneWithLink(ps) {
      errors := errors + [LinkSharing];
    }
    ghost var link := errors;
    for i := 0 to |ps|
      invariant errors == link + ExternalShareReasons(settings.safeDomains, ps[..i])
    {
      var p := ps[i];
      if p.role != "owner" && HasEmail(p) {
        var isSafe := IsSafe(settings.safeDomains, p.emailAddress.value);
        if !isSafe {
          errors := errors + [ExternalShare(p.emailAddress.value, p.role)];
        }
      }
      assert ps[..i + 1] == ps[..i] + [p];
      ExternalShareReasonsAppend(settings.safeDomains, ps[..i], [p]);
    }
    assert ps[..|ps|] == ps;
  }

  /** The domain check distributes over concatenation of permission lists. */
  lemma {:induction false} ExternalShareReasonsAppend(safeDomains: seq<string>, a: seq<Permission>, b: seq<Permission>)
    ensures ExternalShareReasons(safeDomains, a + b)
         == ExternalShareReasons(safeDomains, a) + ExternalShareReasons(safeDomains, b)
  {
    if |a| == 0 {
      assert a + b == b;
    } else {
      assert (a + b)[1..] == a[1..] + b;
      ExternalShareReasonsAppend(safeDomains, a[1..], b);
    }
  }

  /** Each permission contributes, in its own place, exactly one reason with
      its address and role when it is flagged, and nothing otherwise. */
  lemma ExternalShareReasonsSplit(safeDomains: seq<string>, before: seq<Permission>, p: Permission, after: seq<Permission>)
    ensures ExternalShareReasons(safeDomains, before + [p] + after)
         == ExternalShareReasons(safeDomains, before)
          + (if Flagged(safeDomains, p) then [ExternalShare(p.emailAddress.value, p.role)] else [])
          + ExternalShareReasons(safeDomains, after)
  {
    ExternalShareReasonsAppend(safeDomains, before + [p], after);
    ExternalShareReasonsAppend(safeDomains, before, [p]);
  }

  /** An owner, or an entry without an address, never contributes a reason:
      removing it leaves the reasons unchanged. */
  lemma OwnerOrAddresslessIsSilent(safeDomains: seq<string>, before: seq<Permission>, p: Permission, after: seq<Permission>)
    requires p.role == "owner" || !HasEmail(p)
    ensures ExternalShareReasons(safeDomains, before + [p] + after)
         == ExternalShareReasons(safeDomains, before + after)
  {
    ExternalShareReasonsSplit(safeDomains, before, p, after);
    ExternalShareReasonsAppend(safeDomains, before, after);
  }

  /** A reason of the domain check is exactly the reason of some flagged
      permission of the list. */
  lemma {:induction false} ExternalShareReasonsMembers(safeDomains: seq<string>, ps: seq<Permission>, x: Reason)
    ensures x in ExternalShareReasons(safeDomains, ps) <==>
      exists k :: 0 <= k < |ps| && Flagged(safeDomains, ps[k]) && x == ExternalReason(ps[k])
  {
    if |ps| > 0 {
      ExternalShareReasonsMembers(safeDomains, ps[1..], x);
      if x in ExternalShareReasons(safeDomains, ps[1..]) {
        var k :| 0 <= k < |ps[1..]| && Flagged(safeDomains, ps[1..][k]) && x == ExternalReason(ps[1..][k]);
        assert ps[k + 1] == ps[1..][k];
      }
      if exists k :: 0 <= k < |ps| && Flagged(safeDomains, ps[k]) && x == ExternalReason(ps[k]) {
        var k :| 0 <= k < |ps| && Flagged(safeDomains, ps[k]) && x == ExternalReason(ps[k]);
        if k > 0 {
          assert ps[1..][k - 1] == ps[k];
        }
      }
    }
  }

  /** Order: the reason of the flagged permission `i` stands at the index given
      by the number of reasons before it, and the reason of a later flagged
      permission `j` stands strictly after it. */
  lemma ExternalShareReasonsInOrder(safeDomains: seq<string>, ps: seq<Permission>, i: nat, j: nat)
    requires i < j < |ps|
    requires Flagged(safeDomains, ps[i]) && Flagged(safeDomains, ps[j])
    ensures var r := ExternalShareReasons(safeDomains, ps);
      var at, bt := |ExternalShareReasons(safeDomains, ps[..i])|, |ExternalShareReasons(safeDomains, ps[..j])|;
      at < bt < |r| && r[at] == ExternalReason(ps[i]) && r[bt] == ExternalReason(ps[j])
  {
    assert ps == ps[..i] + [ps[i]] + ps[i + 1..];
    ExternalShareReasonsSplit(safeDomains, ps[..i], ps[i], ps[i + 1..]);
    assert ps == ps[..j] + [ps[j]] + ps[j + 1..];
    ExternalShareReasonsSplit(safeDomains, ps[..j], ps[j], ps[j + 1..]);
    assert ps[..j] == ps[..i] + [ps[i]] + ps[i + 1..j];
    ExternalShareReasonsSplit(safeDomains, ps[..i], ps[i], ps[i + 1..j]);
  }

  /** Matching is by suffix and case-sensitive: an allow-listed domain admits
      every address ending in it, including one whose domain merely ends in
      the same letters, but not a different case. */
  lemma SuffixMatching()
    ensures IsSafe(["gmail.com"], "alice@gmail.com")
    ensures IsSafe(["gmail.com"], "mallory@notgmail.com")
    ensures !IsSafe(["gmail.com"], "bob@external.com")
    ensures !IsSafe(["gmail.com"], "carol@GMAIL.COM")
    ensures IsSafe(["fw@gmail.com"], "fw@gmail.com")
  {
  }
}
