/** Keys of the shared token bucket. */
module Keys {
  import opened GoText
  import Base64Url
  import opened ClusterNames

  function WormholeAccessToken(tokenID: Text): Text {
    "wat.v1." + Base64Url.Encode(tokenID)
  }

  function WormholeOauthSession(sha: Text -> Text, accessToken: Text): Text {
    "wos.v1-" + Hex(sha(accessToken))
  }

  function WormholeAccessSubtoken(parentID: Text, externalID: Text): Text {
    "was.v1." + Base64Url.Encode(parentID) + "." + Base64Url.Encode(externalID)
  }

  /** The key of an access token determines its id. */
  lemma AccessTokenKeyInjective(a: Text, b: Text)
    requires WormholeAccessToken(a) == WormholeAccessToken(b)
    ensures a == b
  {
    assert WormholeAccessToken(a)[7..] == Base64Url.Encode(a);
    assert WormholeAccessToken(b)[7..] == Base64Url.Encode(b);
    Base64Url.Injective(a, b);
  }

  /** Two sessions share a key exactly when their access tokens share a digest. */
  lemma SessionKeysEqual(sha: Text -> Text, a: Text, b: Text)
    ensures WormholeOauthSession(sha, a) == WormholeOauthSession(sha, b) <==> sha(a) == sha(b)
  {
    assert WormholeOauthSession(sha, a)[7..] == Hex(sha(a));
    assert WormholeOauthSession(sha, b)[7..] == Hex(sha(b));
    if Hex(sha(a)) == Hex(sha(b)) {
      HexInjective(sha(a), sha(b));
    }
  }

  /** The one dot between two encoded ids marks where the first ends, for no encoding holds a dot. */
  lemma SubtokenKeyInjective(p1: Text, e1: Text, p2: Text, e2: Text)
    requires WormholeAccessSubtoken(p1, e1) == WormholeAccessSubtoken(p2, e2)
    ensures p1 == p2 && e1 == e2
  {
    var a1, b1, a2, b2 := Base64Url.Encode(p1), Base64Url.Encode(e1), Base64Url.Encode(p2), Base64Url.Encode(e2);
    SubtokenKeyTail(p1, e1);
    SubtokenKeyTail(p2, e2);
    FirstDotUnique(a1, b1, a2, b2);
    Base64Url.Injective(p1, p2);
    Base64Url.Injective(e1, e2);
  }

  lemma SubtokenKeyTail(parentID: Text, externalID: Text)
    ensures |WormholeAccessSubtoken(parentID, externalID)| >= 7
    ensures WormholeAccessSubtoken(parentID, externalID)[7..] == Base64Url.Encode(parentID) + "." + Base64Url.Encode(externalID)
  {
    var tail := Base64Url.Encode(parentID) + "." + Base64Url.Encode(externalID);
    assert WormholeAccessSubtoken(parentID, externalID) == "was.v1." + tail;
  }

  lemma FirstDotUnique(a1: Text, b1: Text, a2: Text, b2: Text)
    requires Base64Url.AllAlphabet(a1) && Base64Url.AllAlphabet(a2)
    requires a1 + "." + b1 == a2 + "." + b2
    ensures a1 == a2 && b1 == b2
  {
    var s := a1 + "." + b1;
    FirstDot(a1, b1);
    FirstDot(a2, b2);
    assert |a1| == |a2|;
    assert a1 == s[..|a1|] && a2 == s[..|a2|] && b1 == s[|a1| + 1..] && b2 == s[|a2| + 1..];
  }

  lemma FirstDot(a: Text, b: Text)
    requires Base64Url.AllAlphabet(a)
    ensures var s := a + "." + b;
            s[|a|] == '.' && forall k :: 0 <= k < |a| ==> s[k] != '.'
  {
    var s := a + "." + b;
    forall k | 0 <= k < |a|
      ensures s[k] != '.'
    {
      assert s[k] == a[k];
    }
  }

  lemma VersionedParts(space: Text, tail: Text)
    requires '.' !in space
    ensures Split(space + ".v1." + tail, '.') == [space, "v1"] + Split(tail, '.')
  {
    SplitCons("v1", tail, '.');
    SplitCons(space, "v1" + ['.'] + tail, '.');
    assert space + ".v1." + tail == space + ['.'] + ("v1" + ['.'] + tail);
  }

  /** Keys can be read back: split at the dots, their last parts are the encoded ids. */
  lemma AccessTokenKeyLayout(id: Text)
    ensures Split(WormholeAccessToken(id), '.') == ["wat", "v1", Base64Url.Encode(id)]
  {
    SplitOne(Base64Url.Encode(id), '.');
    VersionedParts("wat", Base64Url.Encode(id));
    assert "wat" + ".v1." == "wat.v1.";
  }

  lemma TwoParts(a: Text, b: Text)
    requires '.' !in a && '.' !in b
    ensures Split(a + "." + b, '.') == [a, b]
  {
    SplitOne(b, '.');
    SplitCons(a, b, '.');
  }

  lemma SubtokenKeyText(a: Text, b: Text)
    ensures "was.v1." + a + "." + b == "was" + ".v1." + (a + "." + b)
  {
    assert "was" + ".v1." == "was.v1.";
  }

  lemma SubtokenKeyLayout(parentID: Text, externalID: Text)
    ensures Split(WormholeAccessSubtoken(parentID, externalID), '.')
            == ["was", "v1", Base64Url.Encode(parentID), Base64Url.Encode(externalID)]
  {
    var p, e := Base64Url.Encode(parentID), Base64Url.Encode(externalID);
    TwoParts(p, e);
    VersionedParts("was", p + "." + e);
    SubtokenKeyText(p, e);
  }

  /** The three key spaces share no key. */
  lemma KeySpacesDisjoint(sha: Text -> Text, id: Text, access: Text, parentID: Text, externalID: Text)
    ensures WormholeAccessToken(id) != WormholeOauthSession(sha, access)
    ensures WormholeAccessToken(id) != WormholeAccessSubtoken(parentID, externalID)
    ensures WormholeOauthSession(sha, access) != WormholeAccessSubtoken(parentID, externalID)
  {
    var wat, wos, was := WormholeAccessToken(id), WormholeOauthSession(sha, access), WormholeAccessSubtoken(parentID, externalID);
    assert wat[1] == 'a' && wos[1] == 'o' && was[1] == 'a';
    assert wat[2] == 't' && was[2] == 's';
  }
}
