/** lua/runner/pubsub.go: the Pub/Sub runner. Messages the application
    sends and receives are recorded per topic; the Lua `check` looks for a
    received message matching an expected table. */
module PubSub {
  import opened Wrappers
  import opened Strs
  import V = Values

  /** A Pub/Sub message: the payload and the string attributes, either of
      which may be Go's nil map (None). */
  datatype Message = Message(msg: Option<map<string, V.Value>>, attributes: Option<map<string, string>>)

  /** The messages sent to and received from one topic. */
  datatype Topic = Topic(sent: seq<Message>, received: seq<Message>)

  const EmptyTopic := Topic([], [])

  /** The topic under a name, or the zero PubSubTopic when there is none. */
  function TopicOf(t: map<string, Topic>, name: string): Topic {
    if name in t then t[name] else EmptyTopic
  }

  /** A float64 json.Marshal refuses. */
  predicate NotFinite(n: V.Number) {
    n.text == "NaN" || n.text == "+Inf" || n.text == "-Inf"
  }

  /** json.Unmarshal of json.Marshal(v) into an `any`: None when Marshal
      fails (a NaN or infinite float, or a map[any]any, which Marshal does
      not support). Numbers come back as float64 and everything else as it
      was. */
  function Json(v: V.Value): Option<V.Value>
    decreases v
  {
    match v
    case Nil => Some(V.Nil)
    case Bool(b) => Some(V.Bool(b))
    case Int(i) => Some(V.Float(V.IntNumber(i)))
    case Float(n) => if NotFinite(n) then None else Some(V.Float(n))
    case Str(s) => Some(V.Str(s))
    case List(items) =>
      if forall i :: 0 <= i < |items| ==> Json(items[i]).Some?
      then Some(V.List(seq(|items|, i requires 0 <= i < |items| => Json(items[i]).value)))
      else None
    case Map(fields) =>
      if forall k :: k in fields ==> Json(fields[k]).Some?
      then Some(V.Map(map k | k in fields :: Json(fields[k]).value))
      else None
    case AnyMap(_) => None
  }

  /** What the JSON encoding keeps exactly: no Go int, no map[any]any and
      no NaN or infinity anywhere. */
  predicate IsJson(v: V.Value)
    decreases v
  {
    match v
    case Int(_) => false
    case Float(n) => !NotFinite(n)
    case List(items) => forall i :: 0 <= i < |items| ==> IsJson(items[i])
    case Map(fields) => forall k :: k in fields ==> IsJson(fields[k])
    case AnyMap(_) => false
    case _ => true
  }

  /** The value check compares a message against:
      {"data": msg, "attributes": attributes} after the JSON round trip,
      a nil map becoming null, or the empty map when Marshal fails. */
  function Target(m: Message): (r: V.Value)
    ensures r.Map?
  {
    var data := if m.msg.Some? then V.Map(m.msg.value) else V.Nil;
    var attrs := if m.attributes.Some? then V.Map(map k | k in m.attributes.value :: V.Str(m.attributes.value[k])) else V.Nil;
    match Json(V.Map(map["data" := data, "attributes" := attrs]))
    case Some(t) => t
    case None => V.Map(map[])
  }

  /** A whole number is finite. */
  lemma IntNumberFinite(i: int)
    ensures !NotFinite(V.IntNumber(i))
  {
    var t := V.IntNumber(i).text;
    if i < 0 {
      assert t[1] == NatDigits(-i)[0] && IsDigit(t[1]);
    } else {
      assert IsDigit(t[0]);
    }
  }

  /** A value the encoding keeps exactly comes back unchanged. */
  lemma {:induction false} JsonKeepsJson(v: V.Value)
    requires IsJson(v)
    decreases v
    ensures Json(v) == Some(v)
  {
    match v
    case List(items) =>
      forall i | 0 <= i < |items| ensures Json(items[i]) == Some(items[i]) {
        JsonKeepsJson(items[i]);
      }
      assert seq(|items|, i requires 0 <= i < |items| => Json(items[i]).value) == items;
    case Map(fields) =>
      forall k | k in fields ensures Json(fields[k]) == Some(fields[k]) {
        JsonKeepsJson(fields[k]);
      }
      assert forall k :: k in fields ==> Json(fields[k]).Some?;
      var m := map k | k in fields :: Json(fields[k]).value;
      assert m.Keys == fields.Keys;
      assert forall k :: k in m ==> m[k] == fields[k];
      assert m == fields;
    case _ =>
  }

  /** What the round trip yields is kept exactly by the encoding. */
  lemma {:induction false} JsonYieldsJson(v: V.Value)
    requires Json(v).Some?
    decreases v
    ensures IsJson(Json(v).value)
  {
    match v
    case List(items) =>
      var r := Json(v).value.items;
      forall i | 0 <= i < |items| ensures IsJson(r[i]) {
        JsonYieldsJson(items[i]);
      }
    case Map(fields) =>
      var r := Json(v).value.fields;
      forall k | k in fields ensures IsJson(r[k]) {
        JsonYieldsJson(fields[k]);
      }
    case Int(i) =>
      IntNumberFinite(i);
    case _ =>
  }

  /** A second round trip changes nothing. */
  lemma JsonIdempotent(v: V.Value)
    requires Json(v).Some?
    ensures Json(Json(v).value) == Json(v)
  {
    JsonYieldsJson(v);
    JsonKeepsJson(Json(v).value);
  }

  /** A message whose payload the encoding keeps exactly is compared as
      {"data": msg, "attributes": attributes}, a nil map as null. */
  lemma TargetOfJsonMessage(m: Message)
    requires m.msg.Some? ==> IsJson(V.Map(m.msg.value))
    ensures Target(m) == V.Map(map[
      "data" := if m.msg.Some? then V.Map(m.msg.value) else V.Nil,
      "attributes" := if m.attributes.Some? then V.Map(map k | k in m.attributes.value :: V.Str(m.attributes.value[k])) else V.Nil])
  {
    var data := if m.msg.Some? then V.Map(m.msg.value) else V.Nil;
    var attrs := if m.attributes.Some? then V.Map(map k | k in m.attributes.value :: V.Str(m.attributes.value[k])) else V.Nil;
    var b := V.Map(map["data" := data, "attributes" := attrs]);
    assert IsJson(b) by {
      assert IsJson(data) && IsJson(attrs);
    }
    JsonKeepsJson(b);
  }

  /** A Go int in a message comes back as a float64. */
  lemma IntComesBackFloat(i: int)
    ensures var t := Target(Message(Some(map["n" := V.Int(i)]), None));
      "data" in t.fields && t.fields["data"] == V.Map(map["n" := V.Float(V.IntNumber(i))])
  {
    var data := V.Map(map["n" := V.Int(i)]);
    var b := V.Map(map["data" := data, "attributes" := V.Nil]);
    assert Json(data) == Some(V.Map(map["n" := V.Float(V.IntNumber(i))])) by {
      var m := map k | k in data.fields :: Json(data.fields[k]).value;
      assert m.Keys == {"n"} && m["n"] == V.Float(V.IntNumber(i));
      assert m == map["n" := V.Float(V.IntNumber(i))];
    }
    assert Json(b).Some?;
    assert Json(b).value.fields["data"] == Json(data).value;
  }

  /** A payload Marshal refuses leaves the target the empty map. */
  lemma UnencodableIsEmpty(n: V.Number)
    requires NotFinite(n)
    ensures Target(Message(Some(map["x" := V.Float(n)]), None)) == V.Map(map[])
  {
    var data := V.Map(map["x" := V.Float(n)]);
    assert Json(data).None? by {
      assert "x" in data.fields && Json(data.fields["x"]).None?;
    }
    var b := V.Map(map["data" := data, "attributes" := V.Nil]);
    assert "data" in b.fields && Json(b.fields["data"]).None?;
  }

  /** How a call of `check` ends. */
  datatype CheckOutcome = Passed | Raised(message: string)

  /** `%v` of a []string: the elements separated by spaces, in brackets. */
  function GoList(names: seq<string>): string {
    "[" + Join(names, " ") + "]"
  }

  /** The index of the first message StdCheckError accepts. */
  function FirstMatch(msgs: seq<Message>, errOf: V.Value -> Option<string>): (r: Option<nat>)
    ensures r.Some? ==> r.value < |msgs| && errOf(Target(msgs[r.value])).None?
    ensures r.Some? ==> forall j :: 0 <= j < r.value ==> errOf(Target(msgs[j])).Some?
    ensures r.None? ==> forall j :: 0 <= j < |msgs| ==> errOf(Target(msgs[j])).Some?
  {
    if msgs == [] then None
    else if errOf(Target(msgs[0])).None? then Some(0)
    else
      var r := FirstMatch(msgs[1..], errOf);
      if r.Some? then Some(r.value + 1) else None
  }

  /** The mismatch errors of messages, in order. */
  function Errors(msgs: seq<Message>, errOf: V.Value -> Option<string>): seq<string> {
    if msgs == [] then []
    else
      var e := errOf(Target(msgs[|msgs| - 1]));
      Errors(msgs[..|msgs| - 1], errOf) + (if e.Some? then [e.value] else [])
  }

  /** When no message matches, every message contributes its error. */
  lemma {:induction false} ErrorsOfMismatches(msgs: seq<Message>, errOf: V.Value -> Option<string>)
    requires forall j :: 0 <= j < |msgs| ==> errOf(Target(msgs[j])).Some?
    ensures |Errors(msgs, errOf)| == |msgs|
    ensures forall j :: 0 <= j < |msgs| ==> Errors(msgs, errOf)[j] == errOf(Target(msgs[j])).value
  {
    if msgs != [] {
      ErrorsOfMismatches(msgs[..|msgs| - 1], errOf);
    }
  }

  /** The three messages check raises besides the collected errors. */
  function NotRegistered(topic: string, names: seq<string>): string {
    "topic " + Quote(topic) + " not registered, has: " + GoList(names)
  }

  function NoMessages(topic: string): string {
    "no messages received on topic " + Quote(topic)
  }

  function NoMatching(topic: string): string {
    "no matching messages received on topic " + Quote(topic)
  }

  /** What check raises or returns, given the topic table, the topic, the
      order the topic names were listed in and StdCheckError's verdict per
      target. Only Received is consulted. */
  function Verdict(t: map<string, Topic>, topic: string, names: seq<string>,
                   errOf: V.Value -> Option<string>): (out: CheckOutcome)
    ensures out.Passed? <==> topic in t && FirstMatch(t[topic].received, errOf).Some?
  {
    if topic !in t then Raised(NotRegistered(topic, names))
    else
      var msgs := t[topic].received;
      if msgs == [] then Raised(NoMessages(topic))
      else if FirstMatch(msgs, errOf).Some? then Passed
      else
        var errs := Errors(msgs, errOf);
        Raised(if |errs| > 0 then Join(errs, "\n") else NoMatching(topic))
  }

  /** The first match is the first message whose target passes. */
  lemma FirstMatchAt(msgs: seq<Message>, errOf: V.Value -> Option<string>, i: nat)
    requires i < |msgs| && errOf(Target(msgs[i])).None?
    requires forall j :: 0 <= j < i ==> errOf(Target(msgs[j])).Some?
    ensures FirstMatch(msgs, errOf) == Some(i)
  {
  }

  /** A registered topic with received messages none of which matches
      raises the joined errors of all of them: the final "no matching
      messages" raise is never reached. */
  lemma NoMatchRaisesAllErrors(t: map<string, Topic>, topic: string, names: seq<string>,
                               errOf: V.Value -> Option<string>)
    requires topic in t && t[topic].received != [] && FirstMatch(t[topic].received, errOf).None?
    ensures var msgs := t[topic].received;
      && |Errors(msgs, errOf)| == |msgs|
      && Verdict(t, topic, names, errOf) == Raised(Join(Errors(msgs, errOf), "\n"))
  {
    ErrorsOfMismatches(t[topic].received, errOf);
  }

  /** Sent messages never decide a check. */
  lemma SentIgnored(t1: map<string, Topic>, t2: map<string, Topic>, topic: string, names: seq<string>,
                    errOf: V.Value -> Option<string>)
    requires t1.Keys == t2.Keys
    requires forall k :: k in t1 ==> t1[k].received == t2[k].received
    ensures Verdict(t1, topic, names, errOf) == Verdict(t2, topic, names, errOf)
  {
  }

  /** `names` lists each key exactly once. */
  ghost predicate Enumerates(names: seq<string>, keys: set<string>) {
    && (forall i :: 0 <= i < |names| ==> names[i] in keys)
    && (forall i, j :: 0 <= i < j < |names| ==> names[i] != names[j])
    && (forall k :: k in keys ==> k in names)
  }

  class PubSub {
    /** The topics map; None is Go's nil map of a fresh PubSub. */
    var topics: Option<map<string, Topic>>

    /** NewPubSub. The publish hook is stored but never called here. */
    constructor ()
      ensures topics == None
    {
      topics := None;
    }

    /** The map as Go reads it: a nil map reads as empty. */
    function Table(): map<string, Topic>
      reads this
    {
      if topics.Some? then topics.value else map[]
    }

    /** Send: the message appended to the topic's Sent list, the topic
        created (and a nil map allocated) when needed. */
    method Send(topic: string, msg: Message)
      modifies this
      ensures topics.Some? && Table().Keys == old(Table()).Keys + {topic}
      ensures Table()[topic].sent == TopicOf(old(Table()), topic).sent + [msg]
      ensures Table()[topic].received == TopicOf(old(Table()), topic).received
      ensures forall k :: k in old(Table()) && k != topic ==> Table()[k] == old(Table())[k]
    {
      var t := TopicOf(Table(), topic);
      t := t.(sent := t.sent + [msg]);
      var m := if topics.None? then map[] else topics.value;
      topics := Some(m[topic := t]);
    }

    /** Receive: the same for the Received list. */
    method Receive(topic: string, msg: Message)
      modifies this
      ensures topics.Some? && Table().Keys == old(Table()).Keys + {topic}
      ensures Table()[topic].received == TopicOf(old(Table()), topic).received + [msg]
      ensures Table()[topic].sent == TopicOf(old(Table()), topic).sent
      ensures forall k :: k in old(Table()) && k != topic ==> Table()[k] == old(Table())[k]
    {
      var t := TopicOf(Table(), topic);
      t := t.(received := t.received + [msg]);
      var m := if topics.None? then map[] else topics.value;
      topics := Some(m[topic := t]);
    }

    /** emptyPubSubTopic: the topic reset to empty lists, which registers
        it. On a nil map the assignment panics and nothing changes. */
    method EmptyPubSubTopic(topic: string) returns (panicked: Option<string>)
      modifies this
      ensures old(topics).None? <==> panicked == Some("assignment to entry in nil map")
      ensures old(topics).None? ==> topics == old(topics)
      ensures old(topics).Some? ==> topics == Some(old(Table())[topic := EmptyTopic])
    {
      if topics.None? {
        return Some("assignment to entry in nil map");
      }
      topics := Some(topics.value[topic := EmptyTopic]);
      return None;
    }

    /** hasTopic. */
    predicate HasTopic(name: string)
      reads this
    {
      name in Table()
    }

    /** messages: the topic's Received list, or nil (empty) for an unknown
        topic. */
    function Messages(topic: string): (r: seq<Message>)
      reads this
      ensures topic !in Table() ==> r == []
    {
      TopicOf(Table(), topic).received
    }

    /** topicsNames: the keys, in map iteration order. */
    method TopicNames() returns (names: seq<string>)
      ensures Enumerates(names, Table().Keys)
    {
      names := [];
      var remaining := Table().Keys;
      while remaining != {}
        invariant remaining <= Table().Keys
        invariant forall i :: 0 <= i < |names| ==> names[i] in Table() && names[i] !in remaining
        invariant forall i, j :: 0 <= i < j < |names| ==> names[i] != names[j]
        invariant forall k :: k in Table() && k !in remaining ==> k in names
        decreases |remaining|
      {
        var k :| k in remaining;
        names := names + [k];
        remaining := remaining - {k};
      }
    }

    /** check(topic, resp): `errOf` is StdCheckError's verdict for the
        expected table against one target. */
    method Check(topic: string, errOf: V.Value -> Option<string>) returns (out: CheckOutcome, ghost names: seq<string>)
      ensures Enumerates(names, Table().Keys)
      ensures out == Verdict(Table(), topic, names, errOf)
      ensures out.Passed? <==> topic in Table() && FirstMatch(Table()[topic].received, errOf).Some?
      ensures topic in Table() && Table()[topic].received == [] ==> out == Raised(NoMessages(topic))
    {
      var listed := TopicNames();
      names := listed;
      ghost var t := Table();
      if !HasTopic(topic) {
        return Raised(NotRegistered(topic, listed)), names;
      }
      var msgs := Messages(topic);
      assert msgs == t[topic].received;
      if |msgs| == 0 {
        return Raised(NoMessages(topic)), names;
      }
      var errs: seq<string> := [];
      var i := 0;
      while i < |msgs|
        invariant 0 <= i <= |msgs|
        invariant forall j :: 0 <= j < i ==> errOf(Target(msgs[j])).Some?
        invariant errs == Errors(msgs[..i], errOf)
      {
        var err := errOf(Target(msgs[i]));
        if err.Some? {
          errs := errs + [err.value];
        } else {
          FirstMatchAt(msgs, errOf, i);
          return Passed, names;
        }
        assert msgs[..i + 1][..i] == msgs[..i];
        i := i + 1;
      }
      assert msgs[..i] == msgs;
      assert FirstMatch(msgs, errOf).None?;
      out := Raised(if |errs| > 0 then Join(errs, "\n") else NoMatching(topic));
    }
  }
}
