/** The alarm status that src/schemas/f142/DataFromPVStruct.cpp reads off an update's alarm message. */
module AlarmStatus {
  import opened Basics

  /** The names of the enumeration AlarmStatus of the f142 schema, in the order of their values. */
  function StatusNames(): (names: seq<string>)
    ensures |names| == 23 && names[0] == "NO_ALARM" && names[17] == "UDF" && names[22] == "NO_CHANGE"
  {
    ["NO_ALARM", "READ", "WRITE", "HIHI", "HIGH", "LOLO", "LOW", "STATE", "COS", "COMM", "TIMED", "HWLIMIT",
     "CALC", "SCAN", "LINK", "SOFT", "BAD_SUB", "UDF", "DISABLE", "SIMM", "READ_ACCESS", "WRITE_ACCESS", "NO_CHANGE"]
  }

  const NO_ALARM := 0
  const UDF := 17
  const NO_CHANGE := 22

  /**
    What is left of a message: the last six characters go, unless the message is NO_ALARM. With
    fewer than six characters the length passed to substr wraps around, and everything stays.
   */
  function Stem(message: string): (s: string) {
    if message == "NO_ALARM" || |message| < 6 then message else message[..|message| - 6]
  }

  /** The first position of `s` among the names from position i on; UDF if there is none. */
  function Lookup(names: seq<string>, i: nat, s: string): (status: int)
    requires i <= |names|
    decreases |names| - i
  {
    if i == |names| then UDF else if names[i] == s then i else Lookup(names, i + 1, s)
  }

  /** The status of an update; None is an update without an alarm field. */
  function Status(message: Option<string>): (status: int) {
    if message.None? then NO_ALARM else Lookup(StatusNames(), 0, Stem(message.value))
  }

  method GetAlarmStatus(message: Option<string>) returns (status: int)
    ensures status == Status(message)
    ensures message.Some? && Stem(message.value) in StatusNames() ==>
      0 <= status < |StatusNames()| && StatusNames()[status] == Stem(message.value)
    ensures message.Some? && Stem(message.value) !in StatusNames() ==> status == UDF
  {
    hide StatusNames, Lookup;
    if message.None? {
      return NO_ALARM;
    }
    var alarm := message.value;
    if alarm != "NO_ALARM" {
      alarm := if |alarm| < 6 then alarm else alarm[..|alarm| - 6];
    }
    var names := StatusNames();
    status := 0;
    while status < |names|
      invariant 0 <= status <= |names|
      invariant Lookup(names, 0, alarm) == Lookup(names, status, alarm)
      invariant forall k :: 0 <= k < status ==> names[k] != alarm
    {
      LookupStep(names, status, alarm);
      if alarm == names[status] {
        return;
      }
      status := status + 1;
    }
    LookupStep(names, status, alarm);
    return UDF;
  }

  lemma LookupStep(names: seq<string>, i: nat, s: string)
    requires i <= |names|
    ensures Lookup(names, i, s) == if i == |names| then UDF else if names[i] == s then i else Lookup(names, i + 1, s)
  {
  }

  lemma {:induction false} LookupFound(names: seq<string>, i: nat, k: nat)
    requires i <= k < |names| && forall a, b :: 0 <= a < b < |names| ==> names[a] != names[b]
    ensures Lookup(names, i, names[k]) == k
    decreases |names| - i
  {
    if i < k {
      LookupFound(names, i + 1, k);
    }
  }

  lemma {:induction false} LookupIs(names: seq<string>, i: nat, s: string)
    requires i <= |names|
    ensures var k := Lookup(names, i, s);
            (s in names[i..] && i <= k < |names| && names[k] == s) || (s !in names[i..] && k == UDF)
    decreases |names| - i
  {
    if i < |names| && names[i] != s {
      LookupIs(names, i + 1, s);
    }
  }

  lemma NamesDiffer()
    ensures forall a, b :: 0 <= a < b < |StatusNames()| ==> StatusNames()[a] != StatusNames()[b]
  {
  }

  /** Every EPICS alarm message, a status name followed by _ALARM, gives that status. */
  lemma StatusRoundTrip(k: nat)
    requires k < |StatusNames()|
    ensures Status(Some(if k == NO_ALARM then "NO_ALARM" else StatusNames()[k] + "_ALARM")) == k
  {
    NamesDiffer();
    NamesLong();
    hide StatusNames, Lookup;
    LookupFound(StatusNames(), 0, k);
    if k != NO_ALARM {
      var name := StatusNames()[k];
      assert (name + "_ALARM")[..|name|] == name;
    }
  }

  lemma NamesLong()
    ensures forall a :: 0 <= a < |StatusNames()| ==> |StatusNames()[a]| != 2
  {
  }

  function StatusOf(message: string): (status: int) {
    Status(Some(message))
  }

  lemma NamesInOrder(names: seq<string>)
    requires names == ["READ", "WRITE", "HIHI", "HIGH", "LOLO", "LOW", "STATE", "COS", "COMM", "TIMED", "HWLIMIT",
                       "CALC", "SCAN", "LINK", "SOFT", "BAD_SUB", "UDF", "DISABLE", "SIMM", "READ_ACCESS",
                       "WRITE_ACCESS"]
    ensures forall k :: 0 <= k < 21 ==> StatusNames()[k + 1] == names[k]
  {
    assert StatusNames() == ["NO_ALARM"] + names + ["NO_CHANGE"];
  }

  /**
    The number of every EPICS alarm message, in the order of system-tests/helpers/f142_logdata/AlarmStatus.py,
    of any other message, and of no alarm field at all.
   */
  lemma StatusNumbers()
    ensures Status(None) == 0 && StatusOf("NO_ALARM") == 0
    ensures var names := ["READ", "WRITE", "HIHI", "HIGH", "LOLO", "LOW", "STATE", "COS", "COMM", "TIMED", "HWLIMIT",
                          "CALC", "SCAN", "LINK", "SOFT", "BAD_SUB", "UDF", "DISABLE", "SIMM", "READ_ACCESS",
                          "WRITE_ACCESS"];
            forall k :: 0 <= k < 21 ==> StatusOf(names[k] + "_ALARM") == k + 1
    ensures forall message :: Stem(message) !in StatusNames() ==> StatusOf(message) == 17
  {
    var names := ["READ", "WRITE", "HIHI", "HIGH", "LOLO", "LOW", "STATE", "COS", "COMM", "TIMED", "HWLIMIT",
                  "CALC", "SCAN", "LINK", "SOFT", "BAD_SUB", "UDF", "DISABLE", "SIMM", "READ_ACCESS", "WRITE_ACCESS"];
    NamesInOrder(names);
    hide StatusNames, Lookup;
    StatusRoundTrip(0);
    forall k | 0 <= k < 21 ensures StatusOf(names[k] + "_ALARM") == k + 1 {
      StatusRoundTrip(k + 1);
    }
    forall message | Stem(message) !in StatusNames() ensures StatusOf(message) == 17 {
      LookupIs(StatusNames(), 0, Stem(message));
      assert StatusNames()[0..] == StatusNames();
    }
  }

  /** The messages that read as NO_CHANGE: NO_CHANGE with any six characters behind it. */
  lemma NoChangeMessages(message: string)
    ensures Status(Some(message)) == NO_CHANGE <==> |message| == 15 && message[..9] == "NO_CHANGE"
  {
    NamesDiffer();
    hide StatusNames, Lookup;
    LookupIs(StatusNames(), 0, Stem(message));
    if Stem(message) == "NO_CHANGE" {
      assert |message| == 15;
    }
    if |message| == 15 && message[..9] == "NO_CHANGE" {
      LookupFound(StatusNames(), 0, 22);
    }
  }
}
