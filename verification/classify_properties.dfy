/**
 Properties of feature classification: a name selects at most one family,
 exactly when it starts with that family's prefix, so the order of the tests
 (or of an equivalent prefix table) never changes the outcome.
 */
module ClassifyProperties {
  import opened Wrappers
  import opened Exporter

  /** Two prefixes of one string are comparable: the shorter is a prefix of
      the longer. */
  lemma PrefixesOfOneString(s: string, p: string, q: string)
    requires HasPrefix(s, p) && HasPrefix(s, q) && |p| <= |q|
    ensures HasPrefix(q, p)
  {
  }

  /** No family's prefix is a prefix of another family's prefix. */
  lemma PrefixesIndependent(f: Family, g: Family)
    requires f != g
    ensures !HasPrefix(Prefix(g), Prefix(f))
  {
    assert Prefix(f)[0] != Prefix(g)[0];
  }

  /** A feature name starts with the prefix of at most one family. */
  lemma AtMostOneFamily(name: string, f: Family, g: Family)
    requires HasPrefix(name, Prefix(f)) && HasPrefix(name, Prefix(g))
    ensures f == g
  {
    if f != g {
      if |Prefix(f)| <= |Prefix(g)| {
        PrefixesOfOneString(name, Prefix(f), Prefix(g));
        PrefixesIndependent(f, g);
      } else {
        PrefixesOfOneString(name, Prefix(g), Prefix(f));
        PrefixesIndependent(g, f);
      }
    }
  }

  /** Classification is exact: a name is put in family `f` if and only if it
      starts with `f`'s prefix. */
  lemma ClassifyExact(name: string, f: Family)
    ensures Classify(name) == Some(f) <==> HasPrefix(name, Prefix(f))
  {
    if HasPrefix(name, Prefix(f)) {
      assert Classify(name).Some?;
      AtMostOneFamily(name, f, Classify(name).value);
    }
  }

  /** Every entry of the classification table pairs a family with its own
      prefix, and every family has an entry. */
  lemma TableEntries()
    ensures forall e :: e in Table ==> e.0 == Prefix(e.1)
    ensures forall f: Family :: (Prefix(f), f) in Table
  {
  }

  /** The if-chain classification is the first-match lookup in the table. */
  lemma ClassifyIsTableLookup(name: string)
    ensures Classify(name) == FirstMatch(Table, name)
  {
    TableEntries();
    match Classify(name)
    case None =>
      assert forall i :: 0 <= i < |Table| ==> !HasPrefix(name, Table[i].0) by {
        forall i | 0 <= i < |Table| ensures !HasPrefix(name, Table[i].0) {
          assert Table[i] in Table;
        }
      }
    case Some(f) =>
      var r := FirstMatch(Table, name);
      assert (Prefix(f), f) in Table;
      var i :| 0 <= i < |Table| && Table[i].1 == r.value && HasPrefix(name, Table[i].0);
      assert Table[i] in Table;
      ClassifyExact(name, r.value);
  }

  /** Reordering the tests cannot change a classification: any table holding
      exactly the same (prefix, family) entries, in any order and with any
      repetition, classifies every name as the if-chain does. */
  lemma TableOrderIrrelevant(t: seq<(string, Family)>, name: string)
    requires forall e :: e in t ==> e in Table
    requires forall e :: e in Table ==> e in t
    ensures FirstMatch(t, name) == Classify(name)
  {
    TableEntries();
    match FirstMatch(t, name)
    case None =>
      forall f: Family ensures !HasPrefix(name, Prefix(f)) {
        assert (Prefix(f), f) in t;
      }
    case Some(g) =>
      var i :| 0 <= i < |t| && t[i].1 == g && HasPrefix(name, t[i].0);
      assert t[i] in Table;
      ClassifyExact(name, g);
  }

  /** A name whose first character starts no family prefix has no family. */
  lemma UnclassifiedByFirstChar(name: string)
    requires |name| > 0
    requires forall f: Family :: name[0] != Prefix(f)[0]
    ensures Classify(name) == None
  {
  }

  /** Matching is case-sensitive: an upper-case spelling of a prefix selects
      no family. */
  lemma ClassifyCaseSensitive()
    ensures Classify("fan1") == Some(FanSpeed)
    ensures Classify("Fan1") == None
    ensures Classify("temp2") == Some(Temperature)
    ensures Classify("TEMP2") == None
  {
    UnclassifiedByFirstChar("Fan1");
    UnclassifiedByFirstChar("TEMP2");
  }

  /** Matching is by prefix only: any continuation of a prefix is accepted. */
  lemma ClassifyByPrefixOnly()
    ensures Classify("in0") == Some(Voltage)
    ensures Classify("intrusion0") == Some(Voltage)
    ensures Classify("power1") == Some(Power)
  {
    ClassifyExact("in0", Voltage);
    ClassifyExact("intrusion0", Voltage);
    ClassifyExact("power1", Power);
  }

  /** A name starting with none of the prefixes is dropped. */
  lemma ClassifyUnknown()
    ensures Classify("unknown3") == None
    ensures Classify("") == None
  {
    UnclassifiedByFirstChar("unknown3");
  }
}
