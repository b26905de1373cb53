/**
 * Pulling the model's text out of the provider's response envelope
 * (`extractModelText`, app/api/guidance/route.ts:88-115). Two envelope shapes
 * are understood: an aggregated top-level `output_text` string, or an `output`
 * array of items whose `content` arrays hold entries with a `text` string.
 */
module Extract {
  import opened Wrappers
  import opened Text
  import opened Json

  /** What one `content` entry contributes: its `text` when that is a
      non-empty string; entries that are not objects contribute nothing. */
  function EntryText(c: Value): (r: seq<string>)
    ensures |r| <= 1
    ensures forall k :: 0 <= k < |r| ==> r[k] != ""
    ensures Field(c, "text").Some? && Field(c, "text").value.Str? && Field(c, "text").value.s != "" ==>
              r == [Field(c, "text").value.s]
    ensures r == [] <==> !(Field(c, "text").Some? && Field(c, "text").value.Str? && Field(c, "text").value.s != "")
    ensures !c.Obj? ==> r == []
  {
    match Field(c, "text")
    case Some(Str(t)) => if t != "" then [t] else []
    case _ => []
  }

  /** The fragments of one `content` array, in encounter order. */
  function ContentParts(content: seq<Value>): (r: seq<string>)
    ensures |r| <= |content|
    ensures forall k :: 0 <= k < |r| ==> r[k] != ""
  {
    if content == [] then [] else EntryText(content[0]) + ContentParts(content[1..])
  }

  /** The fragments of one `output` item: those of its `content` array, or
      none when it is not an object or has no such array. */
  function ItemParts(item: Value): (r: seq<string>)
    ensures forall k :: 0 <= k < |r| ==> r[k] != ""
    ensures !item.Obj? ==> r == []
  {
    match Field(item, "content")
    case Some(Arr(content)) => ContentParts(content)
    case _ => []
  }

  /** The fragments of the whole `output` array, in encounter order. */
  function OutputParts(output: seq<Value>): (r: seq<string>)
    ensures forall k :: 0 <= k < |r| ==> r[k] != ""
  {
    if output == [] then [] else ItemParts(output[0]) + OutputParts(output[1..])
  }

  /** Entries are visited in order: the fragments of two runs of entries are
      those of each, one after the other. */
  lemma {:induction false} ContentPartsAppend(a: seq<Value>, b: seq<Value>)
    ensures ContentParts(a + b) == ContentParts(a) + ContentParts(b)
  {
    if a == [] {
      assert a + b == b;
    } else {
      assert (a + b)[0] == a[0];
      assert (a + b)[1..] == a[1..] + b;
      ContentPartsAppend(a[1..], b);
    }
  }

  /** Fragments are gathered in encounter order: the parts of two runs of
      items are the parts of each, one after the other. */
  lemma {:induction false} OutputPartsAppend(a: seq<Value>, b: seq<Value>)
    ensures OutputParts(a + b) == OutputParts(a) + OutputParts(b)
  {
    if a == [] {
      assert a + b == b;
    } else {
      assert (a + b)[0] == a[0];
      assert (a + b)[1..] == a[1..] + b;
      OutputPartsAppend(a[1..], b);
    }
  }

  lemma ContentPartsStep(content: seq<Value>, j: nat)
    requires j < |content|
    ensures ContentParts(content[..j + 1]) == ContentParts(content[..j]) + EntryText(content[j])
  {
    assert content[..j + 1] == content[..j] + [content[j]];
    ContentPartsAppend(content[..j], [content[j]]);
    assert [content[j]][1..] == [];
  }

  lemma OutputPartsStep(output: seq<Value>, i: nat)
    requires i < |output|
    ensures OutputParts(output[..i + 1]) == OutputParts(output[..i]) + ItemParts(output[i])
  {
    assert output[..i + 1] == output[..i] + [output[i]];
    OutputPartsAppend(output[..i], [output[i]]);
    assert [output[i]][1..] == [];
  }

  /** `parts.join("")`. */
  function Concat(parts: seq<string>): string
  {
    if parts == [] then "" else parts[0] + Concat(parts[1..])
  }

  /** A string property whose trimmed form is not empty. */
  predicate NonBlankString(v: Option<Value>)
  {
    v.Some? && v.value.Str? && Trim(v.value.s) != ""
  }

  /** The value `extractModelText` returns for an envelope; the handler reads
      `None` as "could not extract model text". */
  function ExtractSpec(resp: Value): (r: Option<string>)
    ensures r.Some? ==> Trim(r.value) != ""
    ensures !resp.Obj? ==> r.None?
  {
    if !resp.Obj? then None
    else if NonBlankString(Field(resp, "output_text")) then Some(Field(resp, "output_text").value.s)
    else
      match Field(resp, "output")
      case Some(Arr(output)) => OutputText(output)
      case _ => None
  }

  /** The text collected from an `output` array: its fragments joined and
      trimmed, or `None` when that is empty. */
  function OutputText(output: seq<Value>): (r: Option<string>)
    ensures r.Some? ==> r.value != "" && IsTrimmed(r.value)
  {
    var joined := Trim(Concat(OutputParts(output)));
    if joined == "" then None else Some(joined)
  }

  /** A non-blank `output_text` is returned as it is, untrimmed, whatever
      `output` holds. */
  lemma OutputTextWins(fields: map<string, Value>, t: string)
    requires Trim(t) != ""
    ensures ExtractSpec(Obj(fields["output_text" := Str(t)])) == Some(t)
  {
  }

  /** A blank or non-string `output_text` is ignored: the result is what the
      `output` array alone gives. */
  lemma IgnoredOutputText(fields: map<string, Value>)
    requires !NonBlankString(Field(Obj(fields), "output_text"))
    ensures ExtractSpec(Obj(fields)) == ExtractSpec(Obj(fields - {"output_text"}))
  {
    assert Field(Obj(fields), "output") == Field(Obj(fields - {"output_text"}), "output");
  }

  /** Text gathered from `output` comes back trimmed. */
  lemma CollectedTextTrimmed(resp: Value)
    requires ExtractSpec(resp).Some? && !NonBlankString(Field(resp, "output_text"))
    ensures IsTrimmed(ExtractSpec(resp).value)
  {
  }

  /** Joining two runs of fragments is joining each, one after the other. */
  lemma {:induction false} ConcatAppend(a: seq<string>, b: seq<string>)
    ensures Concat(a + b) == Concat(a) + Concat(b)
  {
    if a == [] {
      assert a + b == b;
    } else {
      assert (a + b)[0] == a[0];
      assert (a + b)[1..] == a[1..] + b;
      ConcatAppend(a[1..], b);
    }
  }

  /** The text of an `output` array is the text of its items, concatenated
      in order. */
  lemma OutputTextConcatenates(a: seq<Value>, b: seq<Value>)
    ensures Concat(OutputParts(a + b)) == Concat(OutputParts(a)) + Concat(OutputParts(b))
  {
    OutputPartsAppend(a, b);
    ConcatAppend(OutputParts(a), OutputParts(b));
  }

  /** The first envelope shape: the aggregated text. */
  function TextEnvelope(t: string): Value
  {
    Obj(map["output_text" := Str(t)])
  }

  /** The second envelope shape: one message item holding one text entry. */
  function MessageEnvelope(t: string): Value
  {
    var entry := Obj(map["type" := Str("output_text"), "text" := Str(t)]);
    Obj(map["output" := Arr([Obj(map["type" := Str("message"), "content" := Arr([entry])])])])
  }

  /** The one message item contributes exactly its text. */
  lemma MessageParts(t: string)
    requires t != ""
    ensures OutputParts(MessageEnvelope(t).fields["output"].items) == [t]
  {
    var entry := Obj(map["type" := Str("output_text"), "text" := Str(t)]);
    var item := Obj(map["type" := Str("message"), "content" := Arr([entry])]);
    assert EntryText(entry) == [t];
    assert [entry][1..] == [];
    assert ContentParts([entry]) == [t];
    assert ItemParts(item) == [t];
    assert [item][1..] == [];
  }

  /** The message item's fragments join to its text. */
  lemma MessageJoined(t: string)
    requires t != ""
    ensures Concat(OutputParts(MessageEnvelope(t).fields["output"].items)) == t
  {
    MessageParts(t);
    assert [t][1..] == [];
  }

  /** The aggregated envelope yields its text when that is not blank. */
  lemma TextEnvelopeExtract(t: string)
    requires Trim(t) != ""
    ensures ExtractSpec(TextEnvelope(t)) == Some(t)
  {
  }

  /** The message envelope yields its text, trimmed. */
  lemma MessageEnvelopeExtract(t: string)
    requires t != "" && IsTrimmed(t)
    ensures ExtractSpec(MessageEnvelope(t)) == Some(t)
  {
    var env := MessageEnvelope(t);
    MessageJoined(t);
    assert Field(env, "output_text").None?;
    assert Field(env, "output") == Some(Arr(env.fields["output"].items));
  }

  /** Either envelope around the same trimmed, non-empty text yields that
      text. */
  lemma EnvelopesAgree(t: string)
    requires t != "" && IsTrimmed(t)
    ensures ExtractSpec(TextEnvelope(t)) == ExtractSpec(MessageEnvelope(t)) == Some(t)
  {
    TextEnvelopeExtract(t);
    MessageEnvelopeExtract(t);
  }

  /** The inner loop of `extractModelText`: pushes the non-empty `text` of
      each entry of one `content` array onto `parts`. */
  method PushContentText(entries: seq<Value>, parts: seq<string>) returns (parts': seq<string>)
    ensures parts' == parts + ContentParts(entries)
  {
    parts' := parts;
    var j := 0;
    while j < |entries|
      invariant 0 <= j <= |entries|
      invariant parts' == parts + ContentParts(entries[..j])
    {
      var text := Field(entries[j], "text");
      ContentPartsStep(entries, j);
      if text.Some? && text.value.Str? && text.value.s != "" {
        assert EntryText(entries[j]) == [text.value.s];
        assert (parts + ContentParts(entries[..j])) + [text.value.s]
            == parts + (ContentParts(entries[..j]) + [text.value.s]);
        parts' := parts' + [text.value.s];
      } else {
        assert EntryText(entries[j]) == [];
      }
      j := j + 1;
    }
    assert entries[..j] == entries;
  }

  /** The outer loop of `extractModelText`: visits every `output` item and
      collects the text of those that carry a `content` array. */
  method CollectOutputText(output: seq<Value>) returns (parts: seq<string>)
    ensures parts == OutputParts(output)
  {
    parts := [];
    var i := 0;
    while i < |output|
      invariant 0 <= i <= |output|
      invariant parts == OutputParts(output[..i])
    {
      var content := Field(output[i], "content");
      if content.Some? && content.value.Arr? {
        assert ItemParts(output[i]) == ContentParts(content.value.items);
        parts := PushContentText(content.value.items, parts);
      } else {
        assert ItemParts(output[i]) == [];
      }
      OutputPartsStep(output, i);
      i := i + 1;
    }
    assert output[..i] == output;
  }

  /** `extractModelText`: the `output_text` shortcut, else the text collected
      from `output`, joined and trimmed, or `None` when that is empty. */
  method ExtractModelText(resp: Value) returns (r: Option<string>)
    ensures r == ExtractSpec(resp)
  {
    if !resp.Obj? {
      return None;
    }
    var outputText := Field(resp, "output_text");
    if NonBlankString(outputText) {
      return Some(outputText.value.s);
    }
    var out := Field(resp, "output");
    if !(out.Some? && out.value.Arr?) {
      return None;
    }
    var parts := CollectOutputText(out.value.items);
    var joined := Trim(Concat(parts));
    r := if joined == "" then None else Some(joined);
    assert r == OutputText(out.value.items);
  }
}
