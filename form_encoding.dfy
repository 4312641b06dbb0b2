/**
 * How the artist page turns its draft into the multipart body of a create or
 * update request, and which of the two requests it sends.
 */
module FormEncoding {
  import opened ArtistDto
  import Text
  import Dates

  /** The file picked in the image input (its contents are opaque here). */
  datatype ImageFile = ImageFile(fileName: string)

  /** The value of one form part: text, a number (converted to text by the browser), or a file. */
  datatype PartValue = TextValue(text: string) | NumberValue(number: real) | FileValue(file: ImageFile)

  datatype Part = Part(name: string, value: PartValue)

  /** The keys of the record. */
  datatype Field =
    | Id | ArtistImage | ArtistName | StageName | NumberOfAlbums
    | SocialMediaLinks | RecordLabel | PublishingHouse | CareerStartDate | Rating

  /** The request the page sends: a create, or an update of the record with the given id. */
  datatype Request = CreateRequest(formData: seq<Part>) | UpdateRequest(id: string, formData: seq<Part>)

  function FieldName(f: Field): string
  {
    match f
    case Id => "id"
    case ArtistImage => "artistImage"
    case ArtistName => "artistName"
    case StageName => "stageName"
    case NumberOfAlbums => "numberOfAlbums"
    case SocialMediaLinks => "socialMediaLinks"
    case RecordLabel => "recordLabel"
    case PublishingHouse => "publishingHouse"
    case CareerStartDate => "careerStartDate"
    case Rating => "rating"
  }

  /** Distinct fields have distinct names. */
  lemma FieldNameInjective(f: Field, g: Field)
    ensures FieldName(f) == FieldName(g) ==> f == g
  {
  }

  predicate Distinct(keys: seq<Field>)
  {
    forall i, j :: 0 <= i < j < |keys| ==> keys[i] != keys[j]
  }

  predicate KeysPresent(a: Artist, keys: seq<Field>)
  {
    forall i :: 0 <= i < |keys| ==> (keys[i] == Id ==> a.id.Some?) && (keys[i] == Rating ==> a.rating.Some?)
  }

  /**
   * `Object.keys` of a draft: every field once, `id` only when the draft has one
   * and `rating` only when it is defined.
   */
  function DraftKeys(a: Artist): (keys: seq<Field>)
    ensures Distinct(keys)
    ensures KeysPresent(a, keys)
    ensures Id in keys <==> a.id.Some?
    ensures Rating in keys <==> a.rating.Some?
    ensures forall f :: f != Id && f != Rating ==> f in keys
  {
    RequiredKeysComplete();
    (if a.id.Some? then [Id] else []) + RequiredKeys() + (if a.rating.Some? then [Rating] else [])
  }

  /** The keys every draft has, in declaration order. */
  function RequiredKeys(): seq<Field>
  {
    [ArtistImage, ArtistName, StageName, NumberOfAlbums, SocialMediaLinks, RecordLabel, PublishingHouse, CareerStartDate]
  }

  lemma RequiredKeysComplete()
    ensures forall f :: f != Id && f != Rating ==> f in RequiredKeys()
  {
    forall f | f != Id && f != Rating
      ensures f in RequiredKeys()
    {
      match f
      case ArtistImage =>
      case ArtistName =>
      case StageName =>
      case NumberOfAlbums =>
      case SocialMediaLinks =>
      case RecordLabel =>
      case PublishingHouse =>
      case CareerStartDate =>
    }
  }

  /** The keys the encoding appends as their own value, with no special case. */
  predicate IsPlainKey(f: Field)
  {
    f != ArtistImage && f != SocialMediaLinks && f != CareerStartDate
  }

  /** The field's own value, `draft[key]`, as appended for a key with no special case. */
  function PlainValue(a: Artist, f: Field): PartValue
    requires IsPlainKey(f)
    requires f == Id ==> a.id.Some?
    requires f == Rating ==> a.rating.Some?
  {
    match f
    case Id => TextValue(a.id.value)
    case ArtistName => TextValue(a.artistName)
    case StageName => TextValue(a.stageName)
    case NumberOfAlbums => NumberValue(a.numberOfAlbums as real)
    case RecordLabel => TextValue(a.recordLabel)
    case PublishingHouse => TextValue(a.publishingHouse)
    case Rating => NumberValue(a.rating.value)
    case ArtistImage | SocialMediaLinks | CareerStartDate => assert false; TextValue("")
  }

  /**
   * The parts one key contributes: the links joined by commas, the first chosen
   * file (nothing if none was chosen), the career start date through the date
   * pipe, and for every other key its own value.
   */
  function FieldParts(a: Artist, f: Field, chosenFiles: seq<ImageFile>, transform: string -> Option<string>): (r: seq<Part>)
    requires f == Id ==> a.id.Some?
    requires f == Rating ==> a.rating.Some?
    ensures |r| <= 1
    ensures r == [] <==> f == ArtistImage && |chosenFiles| == 0
    ensures forall i :: 0 <= i < |r| ==> r[i].name == FieldName(f)
  {
    match f
    case SocialMediaLinks => [Part(FieldName(f), TextValue(Text.Join(a.socialMediaLinks, ',')))]
    case ArtistImage => if |chosenFiles| > 0 then [Part(FieldName(f), FileValue(chosenFiles[0]))] else []
    case CareerStartDate => [Part(FieldName(f), TextValue(Dates.PipeDate(a.careerStartDate, transform)))]
    case _ => [Part(FieldName(f), PlainValue(a, f))]
  }

  /** The parts of the given keys, in key order. */
  function KeysParts(a: Artist, keys: seq<Field>, chosenFiles: seq<ImageFile>, transform: string -> Option<string>): seq<Part>
    requires KeysPresent(a, keys)
  {
    if keys == [] then []
    else KeysParts(a, keys[..|keys| - 1], chosenFiles, transform) + FieldParts(a, keys[|keys| - 1], chosenFiles, transform)
  }

  /** The whole multipart body of a draft. */
  function EncodeDraft(a: Artist, chosenFiles: seq<ImageFile>, transform: string -> Option<string>): (r: seq<Part>)
    ensures |chosenFiles| > 0 ==> |r| == |DraftKeys(a)|
    ensures |chosenFiles| == 0 ==> |r| == |DraftKeys(a)| - 1
  {
    KeysPartsLength(a, DraftKeys(a), chosenFiles, transform);
    KeysParts(a, DraftKeys(a), chosenFiles, transform)
  }

  /** The `forEach` over the draft's keys (`Object.keys` of the draft) that appends each key's parts to the body. */
  method BuildFormData(draft: Artist, keys: seq<Field>, chosenFiles: seq<ImageFile>, transform: string -> Option<string>)
    returns (formData: seq<Part>)
    requires KeysPresent(draft, keys)
    ensures formData == KeysParts(draft, keys, chosenFiles, transform)
  {
    formData := [];
    for i := 0 to |keys|
      invariant formData == KeysParts(draft, keys[..i], chosenFiles, transform)
    {
      var key := keys[i];
      assert keys[..i + 1][..i] == keys[..i];
      assert KeysParts(draft, keys[..i + 1], chosenFiles, transform)
          == KeysParts(draft, keys[..i], chosenFiles, transform) + FieldParts(draft, key, chosenFiles, transform);
      if key == SocialMediaLinks {
        formData := formData + [Part(FieldName(key), TextValue(Text.Join(draft.socialMediaLinks, ',')))];
      } else if key == ArtistImage {
        if |chosenFiles| > 0 {
          formData := formData + [Part(FieldName(key), FileValue(chosenFiles[0]))];
        }
      } else if key == CareerStartDate {
        formData := formData + [Part(FieldName(key), TextValue(Dates.PipeDate(draft.careerStartDate, transform)))];
      } else {
        formData := formData + [Part(FieldName(key), PlainValue(draft, key))];
      }
    }
    assert keys[..|keys|] == keys;
  }

  /** The values of the parts with the given name, in order. */
  function ValuesNamed(parts: seq<Part>, name: string): seq<PartValue>
  {
    if parts == [] then []
    else ValuesNamed(parts[..|parts| - 1], name)
         + (if parts[|parts| - 1].name == name then [parts[|parts| - 1].value] else [])
  }

  lemma {:induction false} ValuesNamedAppend(p: seq<Part>, q: seq<Part>, name: string)
    ensures ValuesNamed(p + q, name) == ValuesNamed(p, name) + ValuesNamed(q, name)
  {
    if q == [] {
      assert p + q == p;
    } else {
      assert (p + q)[..|p + q| - 1] == p + q[..|q| - 1];
      assert (p + q)[|p + q| - 1] == q[|q| - 1];
      ValuesNamedAppend(p, q[..|q| - 1], name);
    }
  }

  /**
   * What a draft's body should hold under each key's name: the id if there is
   * one, the first chosen file if any, the links joined by commas, the date
   * through the date pipe, the rating if defined, and every other field's value.
   */
  function ExpectedValues(a: Artist, f: Field, chosenFiles: seq<ImageFile>, transform: string -> Option<string>): seq<PartValue>
  {
    match f
    case Id => if a.id.Some? then [TextValue(a.id.value)] else []
    case ArtistImage => if |chosenFiles| > 0 then [FileValue(chosenFiles[0])] else []
    case ArtistName => [TextValue(a.artistName)]
    case StageName => [TextValue(a.stageName)]
    case NumberOfAlbums => [NumberValue(a.numberOfAlbums as real)]
    case SocialMediaLinks => [TextValue(Text.Join(a.socialMediaLinks, ','))]
    case RecordLabel => [TextValue(a.recordLabel)]
    case PublishingHouse => [TextValue(a.publishingHouse)]
    case CareerStartDate => [TextValue(Dates.PipeDate(a.careerStartDate, transform))]
    case Rating => if a.rating.Some? then [NumberValue(a.rating.value)] else []
  }

  /** A key's parts carry its own name only. */
  lemma FieldPartsNamed(a: Artist, g: Field, chosenFiles: seq<ImageFile>, transform: string -> Option<string>, f: Field)
    requires g == Id ==> a.id.Some?
    requires g == Rating ==> a.rating.Some?
    ensures ValuesNamed(FieldParts(a, g, chosenFiles, transform), FieldName(f))
      == if f == g then ExpectedValues(a, g, chosenFiles, transform) else []
  {
    var own := FieldParts(a, g, chosenFiles, transform);
    FieldNameInjective(f, g);
    if |own| == 1 {
      assert own[..0] == [];
    }
  }

  /** Over distinct keys, the parts named after `f` are exactly `f`'s own, and there are none for an absent key. */
  lemma {:induction false} KeysPartsNamed(a: Artist, keys: seq<Field>, chosenFiles: seq<ImageFile>,
                                          transform: string -> Option<string>, f: Field)
    requires KeysPresent(a, keys) && Distinct(keys)
    ensures f in keys ==> ValuesNamed(KeysParts(a, keys, chosenFiles, transform), FieldName(f)) == ExpectedValues(a, f, chosenFiles, transform)
    ensures f !in keys ==> ValuesNamed(KeysParts(a, keys, chosenFiles, transform), FieldName(f)) == []
  {
    if keys != [] {
      var init, last := keys[..|keys| - 1], keys[|keys| - 1];
      assert keys == init + [last];
      assert Distinct(init) && KeysPresent(a, init) && last !in init;
      KeysPartsNamed(a, init, chosenFiles, transform, f);
      KeysPartsNamedStep(a, init, last, chosenFiles, transform, f);
    }
  }

  /** The inductive step of KeysPartsNamed: appending one more distinct key. */
  lemma KeysPartsNamedStep(a: Artist, init: seq<Field>, last: Field, chosenFiles: seq<ImageFile>,
                           transform: string -> Option<string>, f: Field)
    requires KeysPresent(a, init + [last]) && Distinct(init + [last])
    requires KeysPresent(a, init) && last !in init
    requires f in init ==> ValuesNamed(KeysParts(a, init, chosenFiles, transform), FieldName(f)) == ExpectedValues(a, f, chosenFiles, transform)
    requires f !in init ==> ValuesNamed(KeysParts(a, init, chosenFiles, transform), FieldName(f)) == []
    ensures f in init + [last] ==>
      ValuesNamed(KeysParts(a, init + [last], chosenFiles, transform), FieldName(f)) == ExpectedValues(a, f, chosenFiles, transform)
    ensures f !in init + [last] ==> ValuesNamed(KeysParts(a, init + [last], chosenFiles, transform), FieldName(f)) == []
  {
    var keys := init + [last];
    assert keys[..|keys| - 1] == init && keys[|keys| - 1] == last;
    var p, q := KeysParts(a, init, chosenFiles, transform), FieldParts(a, last, chosenFiles, transform);
    ValuesNamedAppend(p, q, FieldName(f));
    FieldPartsNamed(a, last, chosenFiles, transform, f);
  }

  /** Every key yields at most one part, and only the image key can yield none. */
  lemma {:induction false} KeysPartsLength(a: Artist, keys: seq<Field>, chosenFiles: seq<ImageFile>,
                                           transform: string -> Option<string>)
    requires KeysPresent(a, keys) && Distinct(keys)
    ensures |KeysParts(a, keys, chosenFiles, transform)| == |keys| - (if ArtistImage in keys && |chosenFiles| == 0 then 1 else 0)
  {
    if keys != [] {
      var init, last := keys[..|keys| - 1], keys[|keys| - 1];
      assert keys == init + [last];
      assert Distinct(init) && KeysPresent(a, init);
      KeysPartsLength(a, init, chosenFiles, transform);
      if last == ArtistImage {
        assert ArtistImage !in init;
      }
    }
  }

  /**
   * The body of a draft holds, under each key's name, exactly the values
   * `ExpectedValues` gives: one part for each key other than the image (the id
   * and the rating only when defined), the links joined by commas, the date
   * through the date pipe, and an image part exactly when a file was chosen.
   */
  lemma EncodeDraftFields(a: Artist, chosenFiles: seq<ImageFile>, transform: string -> Option<string>, f: Field)
    ensures ValuesNamed(EncodeDraft(a, chosenFiles, transform), FieldName(f)) == ExpectedValues(a, f, chosenFiles, transform)
  {
    KeysPartsNamed(a, DraftKeys(a), chosenFiles, transform, f);
  }

  /** Seven parts for the required keys other than the image, one more each for an id, a defined rating and a chosen file, and nothing else. */
  lemma EncodeDraftLength(a: Artist, chosenFiles: seq<ImageFile>, transform: string -> Option<string>)
    ensures |EncodeDraft(a, chosenFiles, transform)|
      == 7 + (if a.id.Some? then 1 else 0) + (if a.rating.Some? then 1 else 0) + (if |chosenFiles| > 0 then 1 else 0)
  {
    var keys := DraftKeys(a);
    KeysPartsLength(a, keys, chosenFiles, transform);
    assert |keys| == 8 + (if a.id.Some? then 1 else 0) + (if a.rating.Some? then 1 else 0);
    assert ArtistImage in keys;
  }

  /** A missing rating becomes 0; nothing else about the draft changes. */
  function DefaultRating(a: Artist): (r: Artist)
    ensures r.rating.Some?
    ensures r.(rating := a.rating) == a
    ensures a.rating.Some? ==> r == a
    ensures a.rating.None? ==> r.rating.value == 0.0
  {
    if a.rating.None? then a.(rating := Some(0.0)) else a
  }

  /** A draft with a (non-empty) id is sent as an update of that id, any other as a create. */
  function RouteRequest(a: Artist, formData: seq<Part>): (r: Request)
    ensures r.formData == formData
    ensures r.UpdateRequest? <==> HasId(a)
    ensures r.UpdateRequest? ==> a.id == Some(r.id)
  {
    if HasId(a) then UpdateRequest(a.id.value, formData) else CreateRequest(formData)
  }

  /**
   * What submitting the form sends: nothing when the form is invalid, otherwise the
   * body of the draft (with its rating defaulted), routed by the draft's id.
   */
  function Submission(formInvalid: bool, draft: Artist, chosenFiles: seq<ImageFile>, transform: string -> Option<string>)
    : (r: Option<Request>)
    ensures r.None? <==> formInvalid
    ensures r.Some? ==> r.value.formData == EncodeDraft(DefaultRating(draft), chosenFiles, transform)
    ensures r.Some? ==> (r.value.UpdateRequest? <==> HasId(draft))
    ensures r.Some? && r.value.UpdateRequest? ==> draft.id == Some(r.value.id)
  {
    if formInvalid then None
    else
      var d := DefaultRating(draft);
      Some(RouteRequest(d, EncodeDraft(d, chosenFiles, transform)))
  }
}
