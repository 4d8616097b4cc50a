/**
 `apiError`: turns the body of a rejected write into one error text. The body
 is decoded as a mapping from field name to the list of messages for that
 field; the decoding itself is a library call, so the mapping arrives here
 already decoded, as a sequence of entries: empty when the body is not a
 JSON object; a member whose value is not an array arrives with no messages;
 an array element that is not a string arrives as an empty message. Go visits the entries of a map in no fixed order and the loop
 returns on the first one it visits, so which entry speaks is an input as
 well: `choice` picks entry `choice % |fields|`.
 */
module ApiErrors {
  import opened Sanitize

  /**
   The decoded mapping as a sequence of entries. A Go map holds each key once
   (of repeated JSON keys the last one wins), so `fieldsOf` yields entries
   with `DistinctKeys`; the lemmas below hold for any sequence, and so in
   particular for those.
   */
  type FieldErrors = seq<(string, seq<string>)>

  /** No key appears in two entries. */
  predicate DistinctKeys(fields: FieldErrors) {
    forall i, j :: 0 <= i < j < |fields| ==> fields[i].0 != fields[j].0
  }

  /** The error text, or the index panic of `v[0]` on an empty message list. */
  datatype ErrorText = Text(text: string) | IndexPanic

  /** The loop body for one visited entry: it always returns. */
  function DescribeField(field: (string, seq<string>), body: string): (r: ErrorText)
    ensures r.IndexPanic? <==> |field.1| == 0
    ensures |field.1| > 0 && |field.1[0]| == 0 ==> r == Text(body)
    ensures |field.1| > 0 && |field.1[0]| > 0 ==>
      r.Text? && r.text == "*" + field.0 + "* " + Sanitized(field.1[0])
  {
    var (k, v) := field;
    if |v| == 0 then IndexPanic
    else if |v[0]| == 0 then Text(body)
    else Text("*" + k + "* " + Sanitized(v[0]))
  }

  function ApiError(fields: FieldErrors, body: string, choice: nat): (r: ErrorText)
    ensures |fields| == 0 ==> r == Text(body)
    ensures |fields| > 0 ==> exists i :: 0 <= i < |fields| && r == DescribeField(fields[i], body)
  {
    if |fields| == 0 then Text(body)
    else
      var i := choice % |fields|;
      // `i` is the witness for the existential in the second ensures.
      assert 0 <= i < |fields| && DescribeField(fields[i], body) == DescribeField(fields[i], body);
      DescribeField(fields[i], body)
  }

  /** Every entry of the mapping is the one that speaks for some visiting order. */
  lemma EveryFieldCanBeChosen(fields: FieldErrors, body: string, i: nat)
    requires i < |fields|
    ensures ApiError(fields, body, i) == DescribeField(fields[i], body)
  {
    assert i % |fields| == i;
  }

  /**
   The possible texts: the raw body, or "*field* message" for an entry whose
   first message is non-empty, the message holding only lower-case letters,
   digits and spaces.
   */
  lemma ApiErrorShape(fields: FieldErrors, body: string, choice: nat)
    requires ApiError(fields, body, choice).Text?
    ensures var t := ApiError(fields, body, choice).text;
      t == body ||
      exists i, m :: 0 <= i < |fields| && |fields[i].1| > 0 && |fields[i].1[0]| > 0
        && m == Sanitized(fields[i].1[0])
        && t == "*" + fields[i].0 + "* " + m
        && (forall j :: 0 <= j < |m| ==> Clean(m[j]))
  {
    if |fields| > 0 {
      var i := choice % |fields|;
      var f := fields[i];
      if |f.1| > 0 && |f.1[0]| > 0 {
        var m := Sanitized(f.1[0]);
        assert ApiError(fields, body, choice).text == "*" + f.0 + "* " + m;
      }
    }
  }

  /** When every field lists at least one message, the formatter never panics. */
  lemma NoPanicWhenEveryListNonEmpty(fields: FieldErrors, body: string, choice: nat)
    requires forall i :: 0 <= i < |fields| ==> |fields[i].1| > 0
    ensures ApiError(fields, body, choice).Text?
  {
  }

  /** A field with no messages panics when it is the one visited. */
  lemma EmptyListPanics(fields: FieldErrors, body: string, i: nat)
    requires i < |fields| && fields[i].1 == []
    ensures ApiError(fields, body, i) == IndexPanic
  {
    EveryFieldCanBeChosen(fields, body, i);
  }

  /** Only the first message of the chosen field matters; the rest are ignored. */
  lemma OnlyFirstMessageMatters(fields: FieldErrors, body: string, choice: nat, i: nat, rest: seq<string>)
    requires i < |fields| && |fields[i].1| > 0
    ensures ApiError(fields[i := (fields[i].0, [fields[i].1[0]] + rest)], body, choice)
         == ApiError(fields, body, choice)
  {
  }

  /** A mapping with one field reports that field's first message. */
  lemma SingleField(k: string, msg: string, body: string, choice: nat)
    requires |msg| > 0
    ensures ApiError([(k, [msg])], body, choice) == Text("*" + k + "* " + Sanitized(msg))
  {
    assert choice % 1 == 0;
  }

  lemma UniqueMessageSanitized(msg: string)
    requires msg == "this field must be unique."
    ensures Sanitized(msg) == "this field must be unique"
  {
    var words := "this field must be unique";
    SanitizedDropsPunctuation(words, ".");
    assert words + "." == msg;
  }

  lemma UniqueFieldText(k: string, m: string)
    requires k == "text_signature" && m == "this field must be unique"
    ensures "*" + k + "* " + m == "*text_signature* this field must be unique"
  {
    var head := "*" + k;
    assert head == "*text_signature";
    assert head + "* " == "*text_signature* ";
  }

  /** The field-validation example: punctuation removed, text lower-cased. */
  lemma UniqueFieldExample(body: string, choice: nat)
    ensures ApiError([("text_signature", ["this field must be unique."])], body, choice)
         == Text("*text_signature* this field must be unique")
  {
    SingleField("text_signature", "this field must be unique.", body, choice);
    UniqueMessageSanitized("this field must be unique.");
    UniqueFieldText("text_signature", "this field must be unique");
  }
}
