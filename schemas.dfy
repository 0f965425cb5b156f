/**
 * The part of the zod schema language that the content collections use, and
 * what parsing a document against such a schema does.
 *
 * A schema is data: `z.number()` is ZNumber, `z.string()` is ZString,
 * `z.boolean().default(d)` is ZBooleanDefault(d), `z.enum([...])` is ZEnum
 * and `z.object({...})` is ZObject with its fields in declaration order.
 * Parsing checks every declared field (it does not stop at the first bad
 * one), reports each problem with the path of keys that leads to it, fills
 * in a default only where the key is absent, and keeps only the declared
 * keys in the parsed object.
 */
module Schemas {
  import opened Wrappers
  import opened JsonValue

  datatype Schema =
    | ZNumber
    | ZString
    | ZBooleanDefault(default: bool)
    | ZEnum(options: seq<string>)
    | ZObject(fields: seq<Field>)

  datatype Field = Field(key: string, schema: Schema)

  /** Why a value was refused: absent, of the wrong JSON type, or a string outside the enum. */
  datatype IssueCode = Required | InvalidType | InvalidEnumValue

  datatype Issue = Issue(path: seq<string>, code: IssueCode)

  type Issues = seq<Issue>

  /** The keys an object schema declares. */
  function Keys(fields: seq<Field>): set<string>
  {
    set i | 0 <= i < |fields| :: fields[i].key
  }

  /** No object in the schema declares the same key twice (a JavaScript object literal cannot). */
  predicate WellFormed(s: Schema)
    decreases s
  {
    match s
    case ZObject(fields) =>
      && (forall i, j :: 0 <= i < j < |fields| ==> fields[i].key != fields[j].key)
      && (forall i :: 0 <= i < |fields| ==> WellFormed(fields[i].schema))
    case _ => true
  }

  function IssuesOf<T>(r: Result<T, Issues>): Issues
  {
    if r.Ok? then [] else r.error
  }

  /** Parses `input` (None when the key is absent) against `s`; `path` locates it in the document. */
  function Parse(s: Schema, input: Option<Json>, path: seq<string>): Result<Json, Issues>
    decreases s
  {
    match s
    case ZNumber =>
      if input.None? then Err([Issue(path, Required)])
      else if input.value.JNum? then Ok(input.value)
      else Err([Issue(path, InvalidType)])
    case ZString =>
      if input.None? then Err([Issue(path, Required)])
      else if input.value.JStr? then Ok(input.value)
      else Err([Issue(path, InvalidType)])
    case ZBooleanDefault(d) =>
      if input.None? then Ok(JBool(d))
      else if input.value.JBool? then Ok(input.value)
      else Err([Issue(path, InvalidType)])
    case ZEnum(options) =>
      if input.None? then Err([Issue(path, Required)])
      else if !input.value.JStr? then Err([Issue(path, InvalidType)])
      else if input.value.s in options then Ok(input.value)
      else Err([Issue(path, InvalidEnumValue)])
    case ZObject(fields) =>
      if input.None? then Err([Issue(path, Required)])
      else if !input.value.JObj? then Err([Issue(path, InvalidType)])
      else
        match ParseFields(fields, input.value.fields, path)
        case Ok(m) => Ok(JObj(m))
        case Err(e) => Err(e)
  }

  /** Parses every declared field of object `o`, collecting the issues of all of them in declaration order. */
  function ParseFields(fields: seq<Field>, o: map<string, Json>, path: seq<string>): Result<map<string, Json>, Issues>
    decreases fields
  {
    if fields == [] then Ok(map[])
    else
      var head := Parse(fields[0].schema, Lookup(o, fields[0].key), path + [fields[0].key]);
      var tail := ParseFields(fields[1..], o, path);
      if head.Ok? && tail.Ok? then Ok(tail.value[fields[0].key := head.value])
      else Err(IssuesOf(head) + IssuesOf(tail))
  }

  // ---------------------------------------------------------------------------
  // Reference definitions: which inputs a schema admits, what a parsed value
  // looks like, and how it relates to the input.
  // ---------------------------------------------------------------------------

  /** The inputs `s` admits, stated field by field. */
  predicate Accepts(s: Schema, input: Option<Json>)
    decreases s
  {
    match s
    case ZNumber => input.Some? && input.value.JNum?
    case ZString => input.Some? && input.value.JStr?
    case ZBooleanDefault(_) => input.None? || input.value.JBool?
    case ZEnum(options) => input.Some? && input.value.JStr? && input.value.s in options
    case ZObject(fields) =>
      && input.Some? && input.value.JObj?
      && forall i :: 0 <= i < |fields| ==> Accepts(fields[i].schema, Lookup(input.value.fields, fields[i].key))
  }

  /** A parsed value of schema `s`: every declared key present with a value of the declared type, and no other key. */
  predicate Shaped(s: Schema, v: Json)
    decreases s
  {
    match s
    case ZNumber => v.JNum?
    case ZString => v.JStr?
    case ZBooleanDefault(_) => v.JBool?
    case ZEnum(options) => v.JStr? && v.s in options
    case ZObject(fields) =>
      && v.JObj? && v.fields.Keys == Keys(fields)
      && forall i :: 0 <= i < |fields| ==> fields[i].key in v.fields && Shaped(fields[i].schema, v.fields[fields[i].key])
  }

  /** The parsed value `out` carries the input's values unchanged, except that an absent defaulted key holds its default. */
  predicate Agrees(s: Schema, input: Option<Json>, out: Json)
    decreases s
  {
    match s
    case ZBooleanDefault(d) => out == (if input.Some? then input.value else JBool(d))
    case ZObject(fields) =>
      && input.Some? && input.value.JObj? && out.JObj?
      && forall i :: 0 <= i < |fields| ==>
           fields[i].key in out.fields
           && Agrees(fields[i].schema, Lookup(input.value.fields, fields[i].key), out.fields[fields[i].key])
    case _ => input == Some(out)
  }

  /** One field of a shaped object: the declared key is present with a value of the declared type. */
  lemma FieldShaped(fields: seq<Field>, v: Json, i: int)
    requires 0 <= i < |fields| && Shaped(ZObject(fields), v)
    ensures v.JObj? && fields[i].key in v.fields && Shaped(fields[i].schema, v.fields[fields[i].key])
  {
  }

  /**
   * One field of an agreeing object: a leaf field carries the input's value,
   * a defaulted field the input's value or else its default, and a nested
   * object agrees with the input's object.
   */
  lemma FieldCarried(fields: seq<Field>, input: Json, out: Json, i: int)
    requires 0 <= i < |fields| && Agrees(ZObject(fields), Some(input), out)
    ensures input.JObj? && out.JObj? && fields[i].key in out.fields
    ensures var k := fields[i].key;
            match fields[i].schema
            case ZBooleanDefault(d) => out.fields[k] == (if k in input.fields then input.fields[k] else JBool(d))
            case ZObject(_) => k in input.fields && Agrees(fields[i].schema, Some(input.fields[k]), out.fields[k])
            case _ => k in input.fields && out.fields[k] == input.fields[k]
  {
    assert Agrees(fields[i].schema, Lookup(input.fields, fields[i].key), out.fields[fields[i].key]);
  }

  // ---------------------------------------------------------------------------
  // What parsing guarantees.
  // ---------------------------------------------------------------------------

  /** The declared keys of a non-empty field list: the first key and those of the rest. */
  lemma KeysCons(fields: seq<Field>)
    requires fields != []
    ensures Keys(fields) == Keys(fields[1..]) + {fields[0].key}
  {
    forall k | k in Keys(fields) ensures k in Keys(fields[1..]) + {fields[0].key} {
      var i :| 0 <= i < |fields| && fields[i].key == k;
      if i > 0 { assert fields[1..][i - 1].key == k; }
    }
  }

  /** Parsing succeeds exactly on the inputs the schema admits. */
  lemma {:induction false} ParseOkIffAccepts(s: Schema, input: Option<Json>, path: seq<string>)
    ensures Parse(s, input, path).Ok? <==> Accepts(s, input)
    decreases s
  {
    if s.ZObject? && input.Some? && input.value.JObj? {
      ParseFieldsOkIffAccepts(s.fields, input.value.fields, path);
    }
  }

  lemma {:induction false} ParseFieldsOkIffAccepts(fields: seq<Field>, o: map<string, Json>, path: seq<string>)
    ensures ParseFields(fields, o, path).Ok? <==>
            forall i :: 0 <= i < |fields| ==> Accepts(fields[i].schema, Lookup(o, fields[i].key))
    decreases fields
  {
    if fields != [] {
      ParseOkIffAccepts(fields[0].schema, Lookup(o, fields[0].key), path + [fields[0].key]);
      ParseFieldsOkIffAccepts(fields[1..], o, path);
      assert forall i :: 1 <= i < |fields| ==> fields[i] == fields[1..][i - 1];
    }
  }

  /**
   * A successful parse yields a value of the declared shape (declared keys
   * only, each of the declared type) that carries the input's values, with
   * defaults only where a key was absent.
   */
  lemma {:induction false} ParsedValue(s: Schema, input: Option<Json>, path: seq<string>)
    requires WellFormed(s)
    ensures Parse(s, input, path).Ok? ==>
              Shaped(s, Parse(s, input, path).value) && Agrees(s, input, Parse(s, input, path).value)
    decreases s
  {
    if s.ZObject? && input.Some? && input.value.JObj? {
      ParsedFields(s.fields, input.value.fields, path);
    }
  }

  lemma {:induction false} ParsedFields(fields: seq<Field>, o: map<string, Json>, path: seq<string>)
    requires forall i, j :: 0 <= i < j < |fields| ==> fields[i].key != fields[j].key
    requires forall i :: 0 <= i < |fields| ==> WellFormed(fields[i].schema)
    ensures var r := ParseFields(fields, o, path);
            r.Ok? ==>
              && r.value.Keys == Keys(fields)
              && forall i :: 0 <= i < |fields| ==>
                   && fields[i].key in r.value
                   && Shaped(fields[i].schema, r.value[fields[i].key])
                   && Agrees(fields[i].schema, Lookup(o, fields[i].key), r.value[fields[i].key])
    decreases fields
  {
    var r := ParseFields(fields, o, path);
    if fields != [] && r.Ok? {
      var k0 := fields[0].key;
      var head := Parse(fields[0].schema, Lookup(o, k0), path + [k0]);
      var tail := ParseFields(fields[1..], o, path);
      ParsedValue(fields[0].schema, Lookup(o, k0), path + [k0]);
      ParsedFields(fields[1..], o, path);
      assert r.value == tail.value[k0 := head.value];
      KeysCons(fields);
      forall i | 1 <= i < |fields|
        ensures && fields[i].key in r.value
                && Shaped(fields[i].schema, r.value[fields[i].key])
                && Agrees(fields[i].schema, Lookup(o, fields[i].key), r.value[fields[i].key])
      {
        assert fields[i] == fields[1..][i - 1];
        assert fields[i].key != k0;
      }
    }
  }

  /** A refused input yields at least one issue, and every issue lies at or below the parsed path. */
  lemma {:induction false} IssuesBelow(s: Schema, input: Option<Json>, path: seq<string>)
    ensures var r := Parse(s, input, path);
            r.Err? ==> r.error != [] && forall issue :: issue in r.error ==> path <= issue.path
    decreases s
  {
    if s.ZObject? && input.Some? && input.value.JObj? {
      FieldIssuesBelow(s.fields, input.value.fields, path);
    }
  }

  lemma {:induction false} FieldIssuesBelow(fields: seq<Field>, o: map<string, Json>, path: seq<string>)
    ensures var r := ParseFields(fields, o, path);
            r.Err? ==>
              && r.error != []
              && forall issue :: issue in r.error ==>
                   exists i :: 0 <= i < |fields| && path + [fields[i].key] <= issue.path
    decreases fields
  {
    var r := ParseFields(fields, o, path);
    if fields != [] && r.Err? {
      var k0 := fields[0].key;
      var head := Parse(fields[0].schema, Lookup(o, k0), path + [k0]);
      var tail := ParseFields(fields[1..], o, path);
      IssuesBelow(fields[0].schema, Lookup(o, k0), path + [k0]);
      FieldIssuesBelow(fields[1..], o, path);
      forall issue | issue in r.error
        ensures exists i :: 0 <= i < |fields| && path + [fields[i].key] <= issue.path
      {
        if issue in IssuesOf(head) {
          assert path + [fields[0].key] <= issue.path;
        } else {
          assert issue in IssuesOf(tail);
          var i :| 0 <= i < |fields[1..]| && path + [fields[1..][i].key] <= issue.path;
          assert fields[1..][i] == fields[i + 1];
        }
      }
    }
  }

  /** Every declared field whose value is refused is named by at least one issue. */
  lemma {:induction false} RefusedFieldReported(fields: seq<Field>, o: map<string, Json>, path: seq<string>, i: nat)
    requires i < |fields|
    requires !Accepts(fields[i].schema, Lookup(o, fields[i].key))
    ensures var r := ParseFields(fields, o, path);
            r.Err? && exists issue :: issue in r.error && path + [fields[i].key] <= issue.path
    decreases i
  {
    var k0 := fields[0].key;
    var head := Parse(fields[0].schema, Lookup(o, k0), path + [k0]);
    var tail := ParseFields(fields[1..], o, path);
    if i == 0 {
      ParseOkIffAccepts(fields[0].schema, Lookup(o, k0), path + [k0]);
      IssuesBelow(fields[0].schema, Lookup(o, k0), path + [k0]);
      assert head.error[0] in ParseFields(fields, o, path).error;
    } else {
      assert fields[1..][i - 1] == fields[i];
      RefusedFieldReported(fields[1..], o, path, i - 1);
      var issue :| issue in tail.error && path + [fields[i].key] <= issue.path;
      assert issue in ParseFields(fields, o, path).error;
    }
  }

  /**
   * An object schema refuses a non-object with one issue at the root; it
   * reports a refused object by issues that each name a declared field, and
   * names every declared field whose value it refuses.
   */
  lemma {:induction false} ObjectIssues(fields: seq<Field>, doc: Json)
    ensures var p := Parse(ZObject(fields), Some(doc), []);
            !doc.JObj? ==> p == Err([Issue([], InvalidType)])
    ensures var p := Parse(ZObject(fields), Some(doc), []);
            doc.JObj? && p.Err? ==>
              forall issue :: issue in p.error ==> |issue.path| > 0 && issue.path[0] in Keys(fields)
    ensures var p := Parse(ZObject(fields), Some(doc), []);
            doc.JObj? ==>
              forall i :: 0 <= i < |fields| && !Accepts(fields[i].schema, Lookup(doc.fields, fields[i].key)) ==>
                p.Err? && exists issue :: issue in p.error && issue.path[..1] == [fields[i].key]
  {
    if doc.JObj? {
      var p := Parse(ZObject(fields), Some(doc), []);
      FieldIssuesBelow(fields, doc.fields, []);
      if p.Err? {
        forall issue | issue in p.error
          ensures |issue.path| > 0 && issue.path[0] in Keys(fields)
        {
          var i :| 0 <= i < |fields| && [] + [fields[i].key] <= issue.path;
        }
      }
      forall i | 0 <= i < |fields| && !Accepts(fields[i].schema, Lookup(doc.fields, fields[i].key))
        ensures p.Err? && exists issue :: issue in p.error && issue.path[..1] == [fields[i].key]
      {
        RefusedFieldReported(fields, doc.fields, [], i);
        var issue :| issue in ParseFields(fields, doc.fields, []).error && [] + [fields[i].key] <= issue.path;
        assert issue.path[..1] == [fields[i].key];
      }
    }
  }
}
