/** The list of brokers on the command line: `split` in src/ConfigParser.cpp. */
module BrokerList {
  import opened Basics

  /** The fields between the commas, of which there is always at least one. */
  function Fields(s: string): (fields: seq<string>)
    ensures |fields| >= 1
  {
    if s == "" then [""]
    else
      var rest := Fields(s[1..]);
      if s[0] == ',' then [""] + rest else [[s[0]] + rest[0]] + rest[1..]
  }

  function NonEmpty(fields: seq<string>): (r: seq<string>) {
    if fields == [] then [] else (if fields[0] == "" then [] else [fields[0]]) + NonEmpty(fields[1..])
  }

  function Join(fields: seq<string>): (s: string) {
    if fields == [] then "" else if |fields| == 1 then fields[0] else fields[0] + "," + Join(fields[1..])
  }

  /** `find`: the first position of c from `start` on. */
  method Find(s: string, c: char, start: nat) returns (position: Option<nat>)
    requires start <= |s|
    ensures position.None? ==> c !in s[start..]
    ensures position.Some? ==> start <= position.value < |s| && s[position.value] == c && c !in s[start..position.value]
  {
    var i := start;
    while i < |s|
      invariant start <= i <= |s| && c !in s[start..i]
    {
      if s[i] == c {
        return Some(i);
      }
      i := i + 1;
    }
    assert s[start..i] == s[start..];
    return None;
  }

  /** The fields that are not empty, in order. */
  method Split(brokers: string) returns (ret: seq<string>)
    ensures ret == NonEmpty(Fields(brokers))
  {
    hide Fields, NonEmpty;
    ret := [];
    var i1 := 0;
    assert brokers[0..] == brokers;
    while true
      invariant 0 <= i1 <= |brokers|
      invariant ret + NonEmpty(Fields(brokers[i1..])) == NonEmpty(Fields(brokers))
      decreases |brokers| - i1
    {
      var i2 := Find(brokers, ',', i1);
      if i2.None? {
        break;
      }
      NextField(brokers, i1, i2.value);
      if i2.value > i1 {
        ret := ret + [brokers[i1..i2.value]];
      }
      i1 := i2.value + 1;
    }
    LastField(brokers[i1..]);
    if i1 != |brokers| {
      ret := ret + [brokers[i1..]];
    }
  }

  lemma NextField(s: string, i: nat, j: nat)
    requires i <= j < |s| && s[j] == ',' && ',' !in s[i..j]
    ensures NonEmpty(Fields(s[i..])) == (if i == j then [] else [s[i..j]]) + NonEmpty(Fields(s[j + 1..]))
  {
    assert s[i..] == s[i..j] + "," + s[j + 1..];
    FieldsOfTwo(s[i..j], s[j + 1..]);
  }

  lemma {:induction false} FieldsOfTwo(a: string, rest: string)
    requires ',' !in a
    ensures Fields(a + "," + rest) == [a] + Fields(rest)
  {
    if a == "" {
      assert a + "," + rest == "," + rest;
      assert ("," + rest)[1..] == rest;
    } else {
      FieldsOfTwo(a[1..], rest);
      assert (a + "," + rest)[1..] == a[1..] + "," + rest;
      assert [a[0]] + a[1..] == a;
    }
  }

  lemma {:induction false} FieldsOfOne(a: string)
    requires ',' !in a
    ensures Fields(a) == [a]
  {
    if a != "" {
      FieldsOfOne(a[1..]);
      assert [a[0]] + a[1..] == a;
    }
  }

  lemma LastField(a: string)
    requires ',' !in a
    ensures NonEmpty(Fields(a)) == if a == "" then [] else [a]
  {
    FieldsOfOne(a);
    assert [a][1..] == [];
  }

  // Fields and Join undo each other

  ghost predicate CommaFree(fields: seq<string>) {
    forall i :: 0 <= i < |fields| ==> ',' !in fields[i]
  }

  lemma {:induction false} FieldsOfJoin(fields: seq<string>)
    requires fields != [] && CommaFree(fields)
    ensures Fields(Join(fields)) == fields
  {
    if |fields| == 1 {
      FieldsOfOne(fields[0]);
    } else {
      FieldsOfJoin(fields[1..]);
      FieldsOfTwo(fields[0], Join(fields[1..]));
    }
  }

  lemma {:induction false} JoinOfFields(s: string)
    ensures CommaFree(Fields(s)) && Join(Fields(s)) == s
  {
    if s != "" {
      JoinOfFields(s[1..]);
      var rest := Fields(s[1..]);
      if s[0] == ',' {
        assert Fields(s)[1..] == rest;
        assert [','] + s[1..] == s;
      } else {
        assert Fields(s)[1..] == rest[1..];
        assert [s[0]] + s[1..] == s;
        if |rest| > 1 {
          assert Join(rest) == rest[0] + "," + Join(rest[1..]);
          assert [s[0]] + rest[0] + "," + Join(rest[1..]) == [s[0]] + (rest[0] + "," + Join(rest[1..]));
        }
      }
    }
  }

  lemma {:induction false} NothingEmpty(fields: seq<string>)
    requires forall i :: 0 <= i < |fields| ==> fields[i] != ""
    ensures NonEmpty(fields) == fields
  {
    if fields != [] {
      NothingEmpty(fields[1..]);
    }
  }

  /** What `split` gives back for a list of brokers written with commas between them is that list. */
  lemma SplitOfJoin(brokers: seq<string>)
    requires CommaFree(brokers) && forall i :: 0 <= i < |brokers| ==> brokers[i] != ""
    ensures NonEmpty(Fields(Join(brokers))) == brokers
  {
    if brokers == [] {
      assert Fields("") == [""] && [""][1..] == [];
    } else {
      FieldsOfJoin(brokers);
      NothingEmpty(brokers);
    }
  }

  lemma {:induction false} Kept(fields: seq<string>, x: string)
    ensures x in NonEmpty(fields) <==> x != "" && x in fields
  {
    if fields != [] {
      Kept(fields[1..], x);
    }
  }

  /** Every broker that `split` gives is not empty and has no comma in it, and none of those is lost. */
  lemma SplitKeeps(s: string, x: string)
    ensures x in NonEmpty(Fields(s)) <==> x != "" && x in Fields(s)
    ensures x in NonEmpty(Fields(s)) ==> ',' !in x
  {
    Kept(Fields(s), x);
    JoinOfFields(s);
  }
}
