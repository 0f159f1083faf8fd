/** Subjects and the kafka-rest convention that names the two subjects of
    a topic: `<topic>-key` for the key schema, `<topic>-value` for the value. */
module Subjects {

  import opened Http

  /** A registry subject. It is not a topic name. */
  type Subject = string

  /** The "no subject" placeholder. */
  const EmptySubject: Subject := ""

  const ValueSuffix := "-value"
  const KeySuffix := "-key"

  /** The subject holding the value schemas of a topic. */
  function ValueSubject(topic: string): (s: Subject)
    ensures s == EmptySubject <==> topic == ""
    ensures topic != "" ==> |s| == |topic| + |ValueSuffix|
    ensures topic != "" ==> s[..|topic|] == topic && s[|topic|..] == ValueSuffix
  {
    if topic == "" then EmptySubject else topic + ValueSuffix
  }

  /** The subject holding the key schemas of a topic. */
  function KeySubject(topic: string): (s: Subject)
    ensures s == EmptySubject <==> topic == ""
    ensures topic != "" ==> |s| == |topic| + |KeySuffix|
    ensures topic != "" ==> s[..|topic|] == topic && s[|topic|..] == KeySuffix
  {
    if topic == "" then EmptySubject else topic + KeySuffix
  }

  /** Reads the topic back from a subject named by the convention: the
      subject minus the given suffix, when it carries one after a non-empty topic. */
  function TopicOf(s: Subject, suffix: string): (topic: Option<string>)
    ensures topic.Some? ==> topic.value != "" && topic.value + suffix == s
  {
    if |s| > |suffix| && s[|s| - |suffix|..] == suffix then
      assert s[..|s| - |suffix|] + suffix == s;
      Some(s[..|s| - |suffix|])
    else None
  }

  /** The value subject of a topic names that topic and nothing else. */
  lemma ValueSubjectRoundTrip(topic: string)
    requires topic != ""
    ensures TopicOf(ValueSubject(topic), ValueSuffix) == Some(topic)
    ensures TopicOf(ValueSubject(topic), KeySuffix).None?
  {
    var s := ValueSubject(topic);
    assert s[|s| - |ValueSuffix|..] == ValueSuffix;
    assert s[..|s| - |ValueSuffix|] == topic;
    assert s[|s| - 1] == 'e';
    if |s| > |KeySuffix| {
      assert s[|s| - |KeySuffix|..][|KeySuffix| - 1] == 'e';
    }
  }

  /** The key subject of a topic names that topic and nothing else. */
  lemma KeySubjectRoundTrip(topic: string)
    requires topic != ""
    ensures TopicOf(KeySubject(topic), KeySuffix) == Some(topic)
    ensures TopicOf(KeySubject(topic), ValueSuffix).None?
  {
    var s := KeySubject(topic);
    assert s[|s| - |KeySuffix|..] == KeySuffix;
    assert s[..|s| - |KeySuffix|] == topic;
    assert s[|s| - 1] == 'y';
    if |s| > |ValueSuffix| {
      assert s[|s| - |ValueSuffix|..][|ValueSuffix| - 1] == 'y';
    }
  }

  /** For a real topic the two subjects differ, both start with the topic,
      and neither is the empty subject; different topics never share a subject. */
  lemma {:induction false} TopicSubjects(topic: string, other: string)
    requires topic != ""
    ensures KeySubject(topic) != ValueSubject(topic)
    ensures KeySubject(topic) != EmptySubject && ValueSubject(topic) != EmptySubject
    ensures KeySubject(topic)[..|topic|] == topic && ValueSubject(topic)[..|topic|] == topic
    ensures ValueSubject(other) == ValueSubject(topic) ==> other == topic
    ensures KeySubject(other) == KeySubject(topic) ==> other == topic
  {
    KeySubjectRoundTrip(topic);
    if ValueSubject(other) == ValueSubject(topic) {
      ValueSubjectRoundTrip(topic);
      if other != "" { ValueSubjectRoundTrip(other); }
    }
    if KeySubject(other) == KeySubject(topic) {
      KeySubjectRoundTrip(topic);
      if other != "" { KeySubjectRoundTrip(other); }
    }
  }
}
