/**
 * The single stored settings record (`FeedbackSettings`): its defaults,
 * the admin save that overwrites every field from the request, and the
 * values the settings page shows.
 */
module FeedbackSettings {
  import opened Wrappers
  import opened Web
  import Recipients

  const DEFAULT_RECIPIENT := "info@example.com"
  const DEFAULT_STYLE_SHEET := "\nbody { margin: 10px; padding: 0; background-color: white; color: black; font: normal 10pt/14pt Ubuntu, sans-serif; }\ndiv { margin-bottom: .5em; }\n.text { display: block; width: 400px; }\ntextarea { height: 200px; }\n#settings textarea { white-space: nowrap; }\n"

  /** A settings value; an unset string property is `None`. */
  datatype SettingsRecord = SettingsRecord(
    from: Option<string>,
    validRecipients: seq<string>,
    styleSheet: Option<string>,
    reCaptchaPublic: Option<string>,
    reCaptchaPrivate: Option<string>)

  /** Python truthiness of an optional string: set and non-empty. */
  predicate Present(o: Option<string>)
  {
    o.Some? && o.value != ""
  }

  /** `value or ''` */
  function OrEmpty(o: Option<string>): (r: string)
    ensures Present(o) <==> r != ""
    ensures r != "" ==> o == Some(r)
  {
    if Present(o) then o.value else ""
  }

  /** `load_settings`: the stored record, or the defaults when nothing is stored. */
  function LoadSettings(stored: Option<SettingsRecord>): (r: SettingsRecord)
    ensures stored.Some? ==> r == stored.value
    ensures stored.None? ==>
      r.validRecipients == [DEFAULT_RECIPIENT] && r.styleSheet == Some(DEFAULT_STYLE_SHEET) &&
      r.from.None? && r.reCaptchaPublic.None? && r.reCaptchaPrivate.None?
  {
    if stored.Some? then stored.value
    else SettingsRecord(None, [DEFAULT_RECIPIENT], Some(DEFAULT_STYLE_SHEET), None, None)
  }

  /** The properties `settings.fields()` lists. */
  datatype Field = From | ValidRecipients | StyleSheet | ReCaptchaPublic | ReCaptchaPrivate

  const ALL_FIELDS: seq<Field> := [From, ValidRecipients, StyleSheet, ReCaptchaPublic, ReCaptchaPrivate]

  /** The request argument each field is read from. */
  function FieldName(f: Field): string
  {
    match f
    case From => "From"
    case ValidRecipients => "ValidRecipients"
    case StyleSheet => "StyleSheet"
    case ReCaptchaPublic => "ReCaptchaPublic"
    case ReCaptchaPrivate => "ReCaptchaPrivate"
  }

  /** A property's value as `getattr` sees it. */
  datatype Value = Unset | Str(s: string) | StrList(items: seq<string>)

  /** The list property takes a list, the string properties a string. */
  predicate Fits(f: Field, v: Value)
  {
    if f == ValidRecipients then v.StrList? else !v.StrList?
  }

  function OptionValue(o: Option<string>): Value
  {
    if o.Some? then Str(o.value) else Unset
  }

  function ValueOption(v: Value): Option<string>
    requires !v.StrList?
  {
    if v.Str? then Some(v.s) else None
  }

  /** `getattr(settings, field)` */
  function GetAttr(r: SettingsRecord, f: Field): (v: Value)
    ensures Fits(f, v)
  {
    match f
    case From => OptionValue(r.from)
    case ValidRecipients => StrList(r.validRecipients)
    case StyleSheet => OptionValue(r.styleSheet)
    case ReCaptchaPublic => OptionValue(r.reCaptchaPublic)
    case ReCaptchaPrivate => OptionValue(r.reCaptchaPrivate)
  }

  /** `setattr(settings, field, value)`: that field takes the value, the others keep theirs. */
  function SetAttr(r: SettingsRecord, f: Field, v: Value): (r': SettingsRecord)
    requires Fits(f, v)
    ensures GetAttr(r', f) == v
    ensures forall g :: g != f ==> GetAttr(r', g) == GetAttr(r, g)
  {
    match f
    case From => r.(from := ValueOption(v))
    case ValidRecipients => r.(validRecipients := v.items)
    case StyleSheet => r.(styleSheet := ValueOption(v))
    case ReCaptchaPublic => r.(reCaptchaPublic := ValueOption(v))
    case ReCaptchaPrivate => r.(reCaptchaPrivate := ValueOption(v))
  }

  /** The value the save loop assigns to a field: the request argument, parsed for the recipient list. */
  function RequestValue(req: Request, f: Field): (v: Value)
    ensures Fits(f, v)
    ensures f == ValidRecipients ==> v == StrList(Recipients.Parse(req.Get(FieldName(f))))
    ensures f != ValidRecipients ==> v == Str(req.Get(FieldName(f)))
  {
    var raw := req.Get(FieldName(f));
    if f == ValidRecipients then StrList(Recipients.Parse(raw)) else Str(raw)
  }

  /** The record after the save loop has visited the fields `fs` in order. */
  function ApplyFields(r: SettingsRecord, req: Request, fs: seq<Field>): SettingsRecord
    decreases |fs|
  {
    if fs == [] then r
    else
      var last := fs[|fs| - 1];
      SetAttr(ApplyFields(r, req, fs[..|fs| - 1]), last, RequestValue(req, last))
  }

  /** What a settings save stores: every field taken from the request. */
  function Saved(req: Request): SettingsRecord
  {
    SettingsRecord(
      Some(req.Get("From")),
      Recipients.Parse(req.Get("ValidRecipients")),
      Some(req.Get("StyleSheet")),
      Some(req.Get("ReCaptchaPublic")),
      Some(req.Get("ReCaptchaPrivate")))
  }

  /** After the loop a field holds the request's value if it was visited, its old value otherwise. */
  lemma {:induction false} AttrAfterApply(r: SettingsRecord, req: Request, fs: seq<Field>, f: Field)
    ensures GetAttr(ApplyFields(r, req, fs), f) == if f in fs then RequestValue(req, f) else GetAttr(r, f)
    decreases |fs|
  {
    if fs != [] {
      var init, last := fs[..|fs| - 1], fs[|fs| - 1];
      assert fs == init + [last];
      AttrAfterApply(r, req, init, f);
    }
  }

  /** Each saved property is the request's value for it. */
  lemma SavedAttr(req: Request, f: Field)
    ensures GetAttr(Saved(req), f) == RequestValue(req, f)
  {
    match f
    case From =>
    case ValidRecipients =>
    case StyleSheet =>
    case ReCaptchaPublic =>
    case ReCaptchaPrivate =>
  }

  /** A record is determined by its five properties. */
  lemma SameAttrs(a: SettingsRecord, b: SettingsRecord)
    requires forall f :: GetAttr(a, f) == GetAttr(b, f)
    ensures a == b
  {
    assert GetAttr(a, From) == GetAttr(b, From);
    assert GetAttr(a, ValidRecipients) == GetAttr(b, ValidRecipients);
    assert GetAttr(a, StyleSheet) == GetAttr(b, StyleSheet);
    assert GetAttr(a, ReCaptchaPublic) == GetAttr(b, ReCaptchaPublic);
    assert GetAttr(a, ReCaptchaPrivate) == GetAttr(b, ReCaptchaPrivate);
  }

  /**
   * A save that visits every field, in whatever order `fields()` yields
   * them, stores the request's values whatever the record held before.
   */
  lemma SaveOverwrites(r: SettingsRecord, req: Request, fs: seq<Field>)
    requires forall f :: f in fs
    ensures ApplyFields(r, req, fs) == Saved(req)
  {
    forall f
      ensures GetAttr(ApplyFields(r, req, fs), f) == GetAttr(Saved(req), f)
    {
      AttrAfterApply(r, req, fs, f);
      SavedAttr(req, f);
    }
    SameAttrs(ApplyFields(r, req, fs), Saved(req));
  }

  lemma AllFieldsListed()
    ensures forall f :: f in ALL_FIELDS
  {
    forall f ensures f in ALL_FIELDS {
      match f
      case From => assert ALL_FIELDS[0] == f;
      case ValidRecipients => assert ALL_FIELDS[1] == f;
      case StyleSheet => assert ALL_FIELDS[2] == f;
      case ReCaptchaPublic => assert ALL_FIELDS[3] == f;
      case ReCaptchaPrivate => assert ALL_FIELDS[4] == f;
    }
  }

  /** The settings object `load_settings` returns and the save updates in place. */
  class Settings {
    var from: Option<string>
    var validRecipients: seq<string>
    var styleSheet: Option<string>
    var reCaptchaPublic: Option<string>
    var reCaptchaPrivate: Option<string>

    function Record(): SettingsRecord
      reads this
    {
      SettingsRecord(from, validRecipients, styleSheet, reCaptchaPublic, reCaptchaPrivate)
    }

    /** `load_settings()` */
    constructor Load(stored: Option<SettingsRecord>)
      ensures Record() == LoadSettings(stored)
    {
      var r := LoadSettings(stored);
      from, validRecipients, styleSheet := r.from, r.validRecipients, r.styleSheet;
      reCaptchaPublic, reCaptchaPrivate := r.reCaptchaPublic, r.reCaptchaPrivate;
    }

    /** `setattr(settings, field, value)` */
    method Assign(f: Field, v: Value)
      requires Fits(f, v)
      modifies this
      ensures Record() == SetAttr(old(Record()), f, v)
    {
      match f
      case From => from := ValueOption(v);
      case ValidRecipients => validRecipients := v.items;
      case StyleSheet => styleSheet := ValueOption(v);
      case ReCaptchaPublic => reCaptchaPublic := ValueOption(v);
      case ReCaptchaPrivate => reCaptchaPrivate := ValueOption(v);
    }

    /** The settings POST: each field in turn takes its request value. */
    method Save(req: Request)
      modifies this
      ensures Record() == ApplyFields(old(Record()), req, ALL_FIELDS)
      ensures Record() == Saved(req)
    {
      var i := 0;
      while i < |ALL_FIELDS|
        invariant 0 <= i <= |ALL_FIELDS|
        invariant Record() == ApplyFields(old(Record()), req, ALL_FIELDS[..i])
      {
        var field := ALL_FIELDS[i];
        var value := RequestValue(req, field);
        Assign(field, value);
        assert ALL_FIELDS[..i + 1][..i] == ALL_FIELDS[..i];
        i := i + 1;
      }
      assert ALL_FIELDS[..i] == ALL_FIELDS;
      AllFieldsListed();
      SaveOverwrites(old(Record()), req, ALL_FIELDS);
    }
  }

  /** The values the settings page shows (`SETTINGS_HTML`'s placeholders). */
  datatype View = View(style: string, styleText: string, home: string, from: string,
                       valid: string, rcPublic: string, rcPrivate: string)

  function ViewOf(r: SettingsRecord, path: string): View
  {
    View(OrEmpty(r.styleSheet), OrEmpty(r.styleSheet), path, OrEmpty(r.from),
         Recipients.Display(r.validRecipients), OrEmpty(r.reCaptchaPublic), OrEmpty(r.reCaptchaPrivate))
  }

  /** The settings form submitted with every input as the page shows it. */
  predicate Resubmits(req: Request, v: View)
  {
    req.Get("From") == v.from && req.Get("ValidRecipients") == v.valid &&
    req.Get("StyleSheet") == v.styleText &&
    req.Get("ReCaptchaPublic") == v.rcPublic && req.Get("ReCaptchaPrivate") == v.rcPrivate
  }

  /**
   * Saving the settings page unchanged keeps the recipient list and turns
   * every unset string into the empty string.
   */
  lemma SaveShown(r: SettingsRecord, path: string, req: Request)
    requires forall i :: 0 <= i < |r.validRecipients| ==> Recipients.IsRecipient(r.validRecipients[i])
    requires Resubmits(req, ViewOf(r, path))
    ensures Saved(req) == SettingsRecord(Some(OrEmpty(r.from)), r.validRecipients, Some(OrEmpty(r.styleSheet)),
                                         Some(OrEmpty(r.reCaptchaPublic)), Some(OrEmpty(r.reCaptchaPrivate)))
  {
    Recipients.DisplayParse(r.validRecipients);
  }

  /** Once saved, viewing the settings page and saving it unchanged stores the same record. */
  lemma ResaveUnchanged(first: Request, path: string, again: Request)
    requires Resubmits(again, ViewOf(Saved(first), path))
    ensures Saved(again) == Saved(first)
  {
    Recipients.ParseWellFormed(first.Get("ValidRecipients"));
    SaveShown(Saved(first), path, again);
  }
}
