/** The deterministic colour of a group: a character-code hash into a ten-colour palette. */
module Colors {
  /** The palette, indexed by the hash modulo its length. */
  const GroupColors: seq<string> := [
    "#ef4444", "#f97316", "#84cc16", "#10b981", "#06b6d4",
    "#3b82f6", "#8b5cf6", "#d946ef", "#ec4899", "#f59e0b"
  ]

  /** The fixed colour of the "Inbox" group, outside the palette. */
  const InboxColor: string := "#6b7280"

  const InboxGroup: string := "Inbox"

  /**
   * The sum of the UTF-16 code units `charCodeAt` reports for one character:
   * the character itself below U+10000, its two surrogate halves above.
   */
  function CodeUnitSum(c: char): nat
  {
    var v := c as int;
    if v < 0x1_0000 then v
    else (0xD800 + (v - 0x1_0000) / 0x400) + (0xDC00 + (v - 0x1_0000) % 0x400)
  }

  /** The hash: the sum of the code units of the string. */
  function Hash(s: string): nat
  {
    if s == [] then 0 else Hash(s[..|s| - 1]) + CodeUnitSum(s[|s| - 1])
  }

  /** `hashString`: adds up the code units one after the other. */
  method HashString(s: string) returns (hash: nat)
    ensures hash == Hash(s)
  {
    hash := 0;
    var i := 0;
    while i < |s|
      invariant 0 <= i <= |s|
      invariant hash == Hash(s[..i])
    {
      assert s[..i + 1][..i] == s[..i];
      hash := hash + CodeUnitSum(s[i]);
      i := i + 1;
    }
    assert s[..i] == s;
  }

  /** The empty string hashes to 0. */
  lemma HashEmpty()
    ensures Hash("") == 0
  {
  }

  /** The hash of a concatenation is the sum of the hashes. */
  lemma {:induction false} HashConcat(a: string, b: string)
    ensures Hash(a + b) == Hash(a) + Hash(b)
  {
    if b == [] {
      assert a + b == a;
    } else {
      var init := b[..|b| - 1];
      assert (a + b)[..|a + b| - 1] == a + init;
      HashConcat(a, init);
    }
  }

  /** Taking one character out of a string lowers the hash by that character's code units. */
  lemma HashRemoveAt(b: string, k: nat)
    requires k < |b|
    ensures Hash(b) == Hash(b[..k] + b[k + 1..]) + CodeUnitSum(b[k])
  {
    var b1, c, b2 := b[..k], [b[k]], b[k + 1..];
    assert b == (b1 + c) + b2;
    HashConcat(b1 + c, b2);
    HashConcat(b1, c);
    HashConcat(b1, b2);
    HashSingle(b[k]);
  }

  /** A single character hashes to its code units. */
  lemma HashSingle(x: char)
    ensures Hash([x]) == CodeUnitSum(x)
  {
    assert [x][..0] == [];
  }

  lemma MultisetRemoveAt(b: string, k: nat)
    requires k < |b|
    ensures multiset(b[..k] + b[k + 1..]) == multiset(b) - multiset{b[k]}
  {
    assert b == b[..k] + [b[k]] + b[k + 1..];
  }

  /** The hash does not depend on the order of the characters. */
  lemma {:induction false} HashAnagram(a: string, b: string)
    requires multiset(a) == multiset(b)
    ensures Hash(a) == Hash(b)
    decreases |a|
  {
    if a != [] {
      var init := a[..|a| - 1];
      var x := a[|a| - 1];
      assert a == init + [x];
      assert x in multiset(b);
      var k :| 0 <= k < |b| && b[k] == x;
      MultisetRemoveAt(a, |a| - 1);
      MultisetRemoveAt(b, k);
      assert a[..|a| - 1] + a[|a|..] == init;
      HashAnagram(init, b[..k] + b[k + 1..]);
      HashRemoveAt(b, k);
    }
  }

  /** `getGroupColor`: grey for "Inbox", otherwise the palette entry the hash selects. */
  function GroupColor(groupName: string): (color: string)
    ensures groupName == InboxGroup ==> color == InboxColor
    ensures groupName != InboxGroup ==> color == GroupColors[Hash(groupName) % |GroupColors|]
    ensures color == InboxColor || color in GroupColors
  {
    if groupName == InboxGroup then InboxColor
    else GroupColors[Hash(groupName) % |GroupColors|]
  }

  /** The grey colour belongs to "Inbox" alone. */
  lemma InboxColorExclusive(groupName: string)
    ensures GroupColor(groupName) == InboxColor <==> groupName == InboxGroup
  {
  }

  /** Anagrams of one another receive the same colour (unless one of them is "Inbox"). */
  lemma AnagramsShareColor(a: string, b: string)
    requires multiset(a) == multiset(b) && a != InboxGroup && b != InboxGroup
    ensures GroupColor(a) == GroupColor(b)
  {
    HashAnagram(a, b);
  }

  lemma HashFarmacia()
    ensures Hash("Farmacia") == 788
  {
    assert "Fa"[..1] == "F";
    assert Hash("Fa") == 167;
    assert "Far"[..2] == "Fa";
    assert "Farm"[..3] == "Far";
    assert Hash("Farm") == 390;
    assert "Farma"[..4] == "Farm";
    assert "Farmac"[..5] == "Farma";
    assert Hash("Farmac") == 586;
    assert "Farmaci"[..6] == "Farmac";
    assert "Farmacia"[..7] == "Farmaci";
  }

  lemma HashTrabajo()
    ensures Hash("Trabajo") == 707
  {
    assert "Tr"[..1] == "T";
    assert Hash("Tr") == 198;
    assert "Tra"[..2] == "Tr";
    assert "Trab"[..3] == "Tra";
    assert Hash("Trab") == 393;
    assert "Traba"[..4] == "Trab";
    assert "Trabaj"[..5] == "Traba";
    assert Hash("Trabaj") == 596;
    assert "Trabajo"[..6] == "Trabaj";
  }

  /** The colours the code gives to two sample groups. */
  lemma SampleColors()
    ensures GroupColor("Farmacia") == "#ec4899"
    ensures GroupColor("Trabajo") == "#d946ef"
  {
    HashFarmacia();
    HashTrabajo();
    assert 788 % |GroupColors| == 8 && 707 % |GroupColors| == 7;
  }

  /** `getUsedColors`: every listed name mapped to its colour. */
  method UsedColors(groupNames: seq<string>) returns (colorMap: map<string, string>)
    ensures colorMap.Keys == set g | g in groupNames
    ensures forall g :: g in colorMap ==> colorMap[g] == GroupColor(g)
  {
    colorMap := map[];
    var i := 0;
    while i < |groupNames|
      invariant 0 <= i <= |groupNames|
      invariant colorMap.Keys == set g | g in groupNames[..i]
      invariant forall g :: g in colorMap ==> colorMap[g] == GroupColor(g)
    {
      assert groupNames[..i + 1] == groupNames[..i] + [groupNames[i]];
      colorMap := colorMap[groupNames[i] := GroupColor(groupNames[i])];
      i := i + 1;
    }
    assert groupNames[..i] == groupNames;
  }
}
