/**
 Names the controller gives to cloud resources and to network objects.

 `ManagedName` is what recovery after a lost create response and isolation between
 objects rest on; `NetworkObjectName` is the name of the object the bootstrap
 controller looks for.  A label is a host-name label of section 2.1 of RFC 1123 with
 the 63-octet limit of section 2.3.4 of RFC 1035.
 */
module Names {

  const MAX_LABEL := 63

  predicate Alnum(c: char) {
    'a' <= c <= 'z' || '0' <= c <= '9'
  }

  predicate LabelChar(c: char) {
    Alnum(c) || c == '-'
  }

  predicate LabelChars(s: string) {
    forall i :: 0 <= i < |s| ==> LabelChar(s[i])
  }

  predicate NoDash(s: string) {
    '-' !in s
  }

  predicate NoDoubleDash(s: string) {
    forall i :: 0 <= i < |s| - 1 ==> !(s[i] == '-' && s[i + 1] == '-')
  }

  /** A DNS label: 1 to 63 letters, digits and dashes with no dash at either edge. */
  predicate Label(s: string) {
    && 1 <= |s| <= MAX_LABEL
    && LabelChars(s)
    && s[0] != '-'
    && s[|s| - 1] != '-'
  }

  function LowerChar(c: char): char {
    if 'A' <= c <= 'Z' then (c as int - 'A' as int + 'a' as int) as char else c
  }

  function Lower(s: string): (r: string)
    ensures |r| == |s|
    ensures forall i :: 0 <= i < |s| ==> r[i] == LowerChar(s[i])
  {
    seq(|s|, i requires 0 <= i < |s| => LowerChar(s[i]))
  }

  /** Every character outside the label alphabet becomes a dash. */
  function Sanitise(s: string): (r: string)
    ensures |r| == |s| && LabelChars(r)
    ensures forall i :: 0 <= i < |s| && LabelChar(s[i]) ==> r[i] == s[i]
  {
    seq(|s|, i requires 0 <= i < |s| => if LabelChar(s[i]) then s[i] else '-')
  }

  function TrimLeft(s: string): (r: string)
    ensures r == [] || r[0] != '-'
    ensures |r| <= |s| && r == s[|s| - |r|..]
  {
    if s != [] && s[0] == '-' then TrimLeft(s[1..]) else s
  }

  function TrimRight(s: string): (r: string)
    ensures r == [] || r[|r| - 1] != '-'
    ensures r <= s
    ensures s != [] && s[0] != '-' ==> r != [] && r[0] == s[0]
    ensures LabelChars(s) ==> LabelChars(r)
  {
    if s != [] && s[|s| - 1] == '-' then TrimRight(s[..|s| - 1]) else s
  }

  function Trim(s: string): string {
    TrimRight(TrimLeft(s))
  }

  function RemoveDashes(s: string): (r: string)
    ensures NoDash(r) && |r| <= |s|
    ensures forall c :: c in r ==> c in s
  {
    if s == [] then []
    else if s[0] == '-' then RemoveDashes(s[1..])
    else [s[0]] + RemoveDashes(s[1..])
  }

  /** The first eight characters of an ownership token once its dashes are gone. */
  function ShortToken(token: string): (r: string)
    ensures |r| <= 8 && NoDash(r)
    ensures forall c :: c in r ==> c in token
  {
    var t := RemoveDashes(token);
    if |t| > 8 then t[..8] else t
  }

  /** How many of the first `i` characters are not dashes. */
  function PlainBefore(s: string, i: nat): nat
    requires i <= |s|
  {
    if i == 0 then 0 else PlainBefore(s, i - 1) + if s[i - 1] == '-' then 0 else 1
  }

  lemma {:induction false} PlainShift(s: string, i: nat)
    requires s != [] && 0 < i <= |s|
    ensures PlainBefore(s, i) == PlainBefore(s[1..], i - 1) + if s[0] == '-' then 0 else 1
  {
    if i > 1 {
      PlainShift(s, i - 1);
    }
  }

  /** Removing the dashes puts each other character after those before it. */
  lemma {:induction false} PlainAt(s: string, i: nat)
    requires i < |s| && s[i] != '-'
    ensures PlainBefore(s, i) < |RemoveDashes(s)| && RemoveDashes(s)[PlainBefore(s, i)] == s[i]
  {
    if i > 0 {
      PlainAt(s[1..], i - 1);
      PlainShift(s, i);
    }
  }

  lemma {:induction false} PlainLength(s: string)
    ensures |RemoveDashes(s)| == PlainBefore(s, |s|)
  {
    if s != [] {
      PlainLength(s[1..]);
      PlainShift(s, |s|);
    }
  }

  /** The short token is the first eight characters that are not dashes, or all of them if fewer. */
  lemma ShortTokenIs(token: string, i: nat)
    ensures var n := PlainBefore(token, |token|); |ShortToken(token)| == if n < 8 then n else 8
    ensures i < |token| && token[i] != '-' && PlainBefore(token, i) < 8 ==>
              PlainBefore(token, i) < |ShortToken(token)| && ShortToken(token)[PlainBefore(token, i)] == token[i]
  {
    PlainLength(token);
    if i < |token| && token[i] != '-' {
      PlainAt(token, i);
    }
  }

  lemma {:induction false} PlainPrefix(s: string, i: nat)
    requires i <= |s| && NoDash(s[..i])
    ensures PlainBefore(s, i) == i
  {
    if i > 0 {
      assert s[..i][i - 1] == s[i - 1] && s[i - 1] in s[..i];
      assert forall c :: c in s[..i - 1] ==> c in s[..i] by {
        assert s[..i - 1] <= s[..i];
      }
      PlainPrefix(s, i - 1);
    }
  }

  /** A UID begins with eight characters before its first dash: they are its short token. */
  predicate LikeUID(uid: string) {
    |uid| >= 8 && NoDash(uid[..8])
  }

  lemma ShortTokenOfUID(uid: string)
    requires LikeUID(uid)
    ensures ShortToken(uid) == uid[..8]
  {
    UIDCharacter(uid, 7);
    forall i | 0 <= i < 8 ensures ShortToken(uid)[i] == uid[i] {
      UIDCharacter(uid, i);
    }
  }

  lemma UIDCharacter(uid: string, i: nat)
    requires LikeUID(uid) && i < 8
    ensures i < |ShortToken(uid)| && ShortToken(uid)[i] == uid[i]
  {
    assert forall c :: c in uid[..i] ==> c in uid[..8] by {
      assert uid[..i] <= uid[..8];
    }
    PlainPrefix(uid, i);
    assert uid[i] == uid[..8][i] && uid[i] in uid[..8];
    ShortTokenIs(uid, i);
  }

  const DEFAULT_BASE := "tcloud-network"

  function LabelOrDefault(name: string): (r: string)
    ensures Label(r)
  {
    if name == "" || !Label(name) then DEFAULT_BASE else name
  }

  function BaseName(base: string): (r: string)
    ensures Label(r)
  {
    LabelOrDefault(Trim(Sanitise(Lower(base))))
  }

  /** The name, cut to leave room for a suffix; dashes at the cut go. */
  function CutToFit(name: string, room: nat): (r: string)
    requires Label(name) && room > 0
    ensures r != [] && r[0] != '-' && r[|r| - 1] != '-' && LabelChars(r) && |r| <= room
  {
    if |name| > room then TrimRight(name[..room]) else name
  }

  /** The cloud name for a base name and a short token. */
  function ManagedName(base: string, token: string): string
    requires |token| <= 8
  {
    CutToFit(BaseName(base), MAX_LABEL - 1 - |token|) + ("-" + token)
  }

  function FirstNonEmpty(a: string, b: string): string {
    if a != "" then a else b
  }

  /** `name` belongs to the family of names that one token can produce. */
  predicate OwnName(token: string, name: string) {
    |token| < |name| && name[|name| - |token| - 1..] == "-" + token
  }

  /** Every managed name ends in its token, and is a label when the token is one. */
  lemma ManagedNameShape(base: string, token: string)
    requires |token| <= 8
    ensures OwnName(token, ManagedName(base, token))
    ensures token != "" && (forall c :: c in token ==> Alnum(c)) ==> Label(ManagedName(base, token))
    ensures var name := ManagedName(base, token); name[0] != '-' && |name| > |token| + 1 && name[|name| - |token| - 2] != '-'
  {
    hide CutToFit, BaseName, Label, LabelChars, OwnName;
    SuffixedShape(CutToFit(BaseName(base), MAX_LABEL - 1 - |token|), token);
  }

  lemma SuffixedShape(head: string, token: string)
    requires head != [] && head[0] != '-' && head[|head| - 1] != '-' && LabelChars(head)
    requires |head| + |token| + 1 <= MAX_LABEL
    ensures OwnName(token, head + ("-" + token))
    ensures token != "" && (forall c :: c in token ==> Alnum(c)) ==> Label(head + ("-" + token))
    ensures var r := head + ("-" + token); r[0] != '-' && |r| > |token| + 1 && r[|r| - |token| - 2] != '-'
  {
    var r := head + ("-" + token);
    assert r[|r| - |token| - 1..] == "-" + token;
    if token != "" && forall c :: c in token ==> Alnum(c) {
      assert r[|r| - 1] == token[|token| - 1] && token[|token| - 1] in token;
      forall i | 0 <= i < |r| ensures LabelChar(r[i]) {
        if i > |head| { assert r[i] == token[i - |head| - 1]; }
      }
    }
  }

  /** A name that two tokens of different length can produce puts a dash in the longer one. */
  lemma LongerTokenHasDash(t1: string, t2: string, name: string)
    requires |t1| < |t2|
    requires OwnName(t1, name) && OwnName(t2, name)
    ensures !NoDash(t2)
  {
    var n := |name|;
    assert name[n - |t1| - 1] == name[n - |t1| - 1..][0];
    assert name[n - |t2| - 1..][|t2| - |t1|] == name[n - |t1| - 1];
    assert t2[|t2| - |t1| - 1] == ("-" + t2)[|t2| - |t1|];
  }

  /** One name belongs to the family of at most one token. */
  lemma OwnNamesSeparate(t1: string, t2: string, name: string)
    requires NoDash(t1) && NoDash(t2)
    requires OwnName(t1, name) && OwnName(t2, name)
    ensures t1 == t2
  {
    if |t1| < |t2| {
      LongerTokenHasDash(t1, t2, name);
    } else if |t2| < |t1| {
      LongerTokenHasDash(t2, t1, name);
    } else {
      assert t1 == ("-" + t1)[1..] == ("-" + t2)[1..] == t2;
    }
  }

  /** Objects whose short tokens differ never give any two resources the same name. */
  lemma ManagedNamesNeverCollide(base1: string, uid1: string, base2: string, uid2: string)
    ensures ManagedName(base1, ShortToken(uid1)) == ManagedName(base2, ShortToken(uid2))
            ==> ShortToken(uid1) == ShortToken(uid2)
  {
    ManagedNameShape(base1, ShortToken(uid1));
    ManagedNameShape(base2, ShortToken(uid2));
    if ManagedName(base1, ShortToken(uid1)) == ManagedName(base2, ShortToken(uid2)) {
      OwnNamesSeparate(ShortToken(uid1), ShortToken(uid2), ManagedName(base1, ShortToken(uid1)));
    }
  }

  /** Two UIDs give equal names, for any base names, only if their first eight characters agree. */
  lemma NamesOfUIDsNeverCollide(base1: string, uid1: string, base2: string, uid2: string)
    requires LikeUID(uid1) && LikeUID(uid2) && uid1[..8] != uid2[..8]
    ensures ManagedName(base1, ShortToken(uid1)) != ManagedName(base2, ShortToken(uid2))
  {
    ShortTokenOfUID(uid1);
    ShortTokenOfUID(uid2);
    ManagedNamesNeverCollide(base1, uid1, base2, uid2);
  }

  lemma {:induction false} TrimNothing(s: string)
    requires s != [] && s[0] != '-' && s[|s| - 1] != '-'
    ensures Trim(s) == s
  {
  }

  /** A base name that is a label once in lower case, and fits, is kept whole before its token. */
  lemma ManagedNameKeepsBase(base: string, token: string)
    requires |token| <= 8 && Label(Lower(base)) && |base| + 1 + |token| <= MAX_LABEL
    ensures ManagedName(base, token) == Lower(base) + "-" + token
  {
    hide Label, Lower, BaseName;
    BaseIsKept(base);
    assert Lower(base) + ("-" + token) == Lower(base) + "-" + token;
  }

  lemma BaseIsKept(base: string)
    requires Label(Lower(base))
    ensures BaseName(base) == Lower(base)
  {
    hide Lower, Trim;
    var low := Lower(base);
    SanitiseNothing(low);
    TrimNothing(low);
  }

  lemma SanitiseNothing(s: string)
    requires LabelChars(s)
    ensures Sanitise(s) == s
  {
  }

  /** A longer one is cut to fill the label, dashes at the cut aside. */
  lemma ManagedNameCutsBase(base: string, token: string)
    requires |token| <= 8 && Label(Lower(base)) && |base| + 1 + |token| > 63 && Lower(base)[61 - |token|] != '-'
    ensures ManagedName(base, token) == Lower(base)[..62 - |token|] + "-" + token
  {
    hide Label, Lower, BaseName;
    BaseIsKept(base);
    var cut := Lower(base)[..62 - |token|];
    assert cut[|cut| - 1] != '-';
    assert cut + ("-" + token) == cut + "-" + token;
  }

  /** A base name without a single letter or digit is replaced. */
  lemma ManagedNameReplacesBase(base: string, token: string)
    requires |token| <= 8 && forall c :: c in Lower(base) ==> !Alnum(c)
    ensures ManagedName(base, token) == "tcloud-network-" + token
  {
    hide Label, Lower, Sanitise, Trim;
    NothingIsLeft(base);
    assert BaseName(base) == "tcloud-network";
    assert "tcloud-network" + ("-" + token) == "tcloud-network-" + token;
  }

  lemma NothingIsLeft(base: string)
    requires forall c :: c in Lower(base) ==> !Alnum(c)
    ensures Trim(Sanitise(Lower(base))) == ""
  {
    var low, s := Lower(base), Sanitise(Lower(base));
    forall i | 0 <= i < |s| ensures s[i] == '-' {
      assert low[i] in low;
      if low[i] == '-' { assert LabelChar(low[i]); }
    }
    TrimAll(s);
  }

  lemma {:induction false} TrimAll(s: string)
    requires forall i :: 0 <= i < |s| ==> s[i] == '-'
    ensures TrimLeft(s) == []
  {
    if s != [] {
      TrimAll(s[1..]);
    }
  }

  // ---------------------------------------------------------------- network objects

  const NETWORK_SUFFIX := "-network"

  /** Runs of characters outside the alphabet become one dash; none leads. */
  function Squeeze(s: string): (r: string)
    ensures LabelChars(r) && NoDoubleDash(r)
    ensures r != [] ==> r[0] != '-'
    ensures s != [] && Alnum(s[|s| - 1]) ==> r != [] && r[|r| - 1] == s[|s| - 1]
  {
    if s == [] then []
    else
      var r, c := Squeeze(s[..|s| - 1]), s[|s| - 1];
      if Alnum(c) then r + [c]
      else if r != [] && r[|r| - 1] != '-' then r + "-"
      else r
  }

  /** Names that `Squeeze` leaves alone: letters, digits and single inner dashes. */
  predicate Normalised(s: string) {
    LabelChars(s) && NoDoubleDash(s) && s != "" && s[0] != '-' && s[|s| - 1] != '-'
  }

  /** The name of the network object for a cluster: squeezed, then cut to one label. */
  function ObjectName(clusterName: string): (name: string)
    ensures Label(name) && NoDoubleDash(name)
  {
    var source := Lower(clusterName + NETWORK_SUFFIX);
    assert source[|source| - 1] == 'k';
    var name := Squeeze(source);
    if |name| > MAX_LABEL then TrimRight(name[..MAX_LABEL]) else name
  }

  /** One scan that keeps letters and digits and turns each run of others into a dash. */
  method SqueezedRunes(source: string) returns (runes: string)
    ensures runes == Squeeze(source)
  {
    runes := [];
    var lastWasDash := false;
    for i := 0 to |source|
      invariant runes == Squeeze(source[..i])
      invariant lastWasDash <==> runes != [] && runes[|runes| - 1] == '-'
    {
      assert source[..i + 1][..i] == source[..i];
      if Alnum(source[i]) {
        runes := runes + [source[i]];
        lastWasDash := false;
      } else if |runes| > 0 && !lastWasDash {
        runes := runes + "-";
        lastWasDash := true;
      }
    }
    assert source[..|source|] == source;
  }

  /** The object name, from one scan; the fallback for an empty name is never needed. */
  method NetworkObjectName(clusterName: string) returns (name: string)
    ensures name == ObjectName(clusterName)
  {
    hide Trim, Squeeze;
    var source := Lower(clusterName + NETWORK_SUFFIX);
    assert source[|source| - 1] == 'k';
    var runes := SqueezedRunes(source);
    TrimNothing(runes);
    name := Trim(runes);
    if name == "" {
      name := "tcloud-cluster-network";
    }
    if |name| > MAX_LABEL {
      name := TrimRight(name[..MAX_LABEL]);
    }
  }

  /** A normalised name of at most 55 characters is kept whole. */
  lemma ObjectNameOfNormalised(s: string)
    requires Normalised(s) && |s| <= 55
    ensures ObjectName(s) == s + "-network"
  {
    var t := s + "-network";
    WithSuffixNormalised(s);
    assert Lower(t) == t;
    SqueezeIdentity(t);
  }

  /** A longer one is cut after 63 characters, and loses at most the dash at the cut. */
  lemma ObjectNameIsCut(s: string)
    requires Normalised(s) && |s| > 55
    ensures var name := ObjectName(s); name <= s + "-network" && 62 <= |name| <= 63
  {
    var t := s + "-network";
    WithSuffixNormalised(s);
    assert Lower(t) == t;
    SqueezeIdentity(t);
    TrimsOne(t[..63]);
  }

  lemma WithSuffixNormalised(s: string)
    requires Normalised(s)
    ensures Normalised(s + "-network")
  {
    var t := s + "-network";
    forall i | 0 <= i < |t| ensures LabelChar(t[i]) {
      if i >= |s| { assert t[i] == "-network"[i - |s|]; }
    }
    forall i | 0 <= i < |t| - 1 ensures !(t[i] == '-' && t[i + 1] == '-') {
      if i >= |s| { assert t[i + 1] == "-network"[i + 1 - |s|]; }
      else if i == |s| - 1 { assert t[i] == s[|s| - 1]; }
    }
  }

  lemma TrimsOne(s: string)
    requires NoDoubleDash(s) && |s| > 1
    ensures |TrimRight(s)| >= |s| - 1
  {
    if s[|s| - 1] == '-' {
      var p := s[..|s| - 1];
      assert p[|p| - 1] == s[|s| - 2];
      assert TrimRight(s) == TrimRight(p) == p;
    }
  }

  /** The two agree on letters and digits, and differ only in which other characters stand elsewhere. */
  predicate SamePlain(s: string, t: string) {
    |s| == |t| && forall i :: 0 <= i < |s| ==> (Alnum(s[i]) <==> Alnum(t[i])) && (Alnum(s[i]) ==> s[i] == t[i])
  }

  /** Every other character counts as a dash. */
  lemma {:induction false} OthersCountAsDashes(s: string, t: string)
    requires SamePlain(s, t)
    ensures Squeeze(s) == Squeeze(t)
  {
    if s != [] {
      var p, q := s[..|s| - 1], t[..|t| - 1];
      assert forall i :: 0 <= i < |p| ==> p[i] == s[i] && q[i] == t[i];
      OthersCountAsDashes(p, q);
    }
  }

  /** So clusters whose names differ in such characters only share an object. */
  lemma SameObjectForOtherCharacters(a: string, b: string)
    requires SamePlain(Lower(a), Lower(b))
    ensures ObjectName(a) == ObjectName(b)
  {
    var s, t := Lower(a + NETWORK_SUFFIX), Lower(b + NETWORK_SUFFIX);
    assert forall i :: 0 <= i < |a| ==> s[i] == Lower(a)[i] && t[i] == Lower(b)[i];
    assert forall i :: |a| <= i < |s| ==> s[i] == t[i];
    OthersCountAsDashes(s, t);
  }

  lemma {:induction false} SqueezeIdentity(s: string)
    requires LabelChars(s) && NoDoubleDash(s)
    requires s != [] ==> s[0] != '-'
    ensures Squeeze(s) == s
  {
    if s != [] {
      var p := s[..|s| - 1];
      SqueezeIdentity(p);
      assert s == p + [s[|s| - 1]];
    }
  }

  /** Distinct normalised cluster names of at most 55 characters get distinct objects. */
  lemma ObjectNamesInjective(a: string, b: string)
    requires Normalised(a) && |a| <= 55
    requires Normalised(b) && |b| <= 55
    requires ObjectName(a) == ObjectName(b)
    ensures a == b
  {
    ObjectNameOfNormalised(a);
    ObjectNameOfNormalised(b);
    var n := |a + NETWORK_SUFFIX| - |NETWORK_SUFFIX|;
    assert a == (a + NETWORK_SUFFIX)[..n] && b == (b + NETWORK_SUFFIX)[..n];
  }
}
