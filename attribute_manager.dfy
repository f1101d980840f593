/**
 * The tag editor of a manga item: a working copy of the item's tags (name to
 * score) that holds at most four tags when edited through its buttons, and a
 * text field for a custom tag name. Saving hands the working copy back.
 */
module AttributeManager {
  import Js
  import opened Wrappers
  import opened ShareStore

  /** The number of tags the add buttons allow. */
  const MaxTags: nat := 4

  /** The score a new tag starts with: 5 points, in tenths. */
  const DefaultScore: Score := 50

  /** `handleAddTag`: no change once four or more tags are held, else the key set to the score. */
  function WithTagAdded(tags: Tags, key: string, score: Score): (r: Tags)
    ensures |tags| >= MaxTags ==> r == tags
    ensures |tags| < MaxTags ==> key in r && r[key] == score
    ensures forall k :: k != key ==> (k in r <==> k in tags) && (k in r ==> r[k] == tags[k])
    ensures |tags| <= MaxTags ==> |r| <= MaxTags
  {
    if |tags| >= MaxTags then tags else tags[key := score]
  }

  /** `handleRemoveTag`: a copy without the key. */
  function WithoutTag(tags: Tags, key: string): (r: Tags)
    ensures key !in r
    ensures forall k :: k != key ==> (k in r <==> k in tags) && (k in r ==> r[k] == tags[k])
    ensures |r| <= |tags|
  {
    tags - {key}
  }

  /** `handleScoreChange`: the parsed score is set with no cap check; a NaN (`None`) is ignored. */
  function WithScore(tags: Tags, key: string, score: Option<Score>): (r: Tags)
    ensures score.None? ==> r == tags
    ensures score.Some? ==> key in r && r[key] == score.value
    ensures forall k :: k != key ==> (k in r <==> k in tags) && (k in r ==> r[k] == tags[k])
  {
    if score.Some? then tags[key := score.value] else tags
  }

  /**
   * The properties a plain object inherits from `Object.prototype`. Looking one
   * of them up on the tag record, when it is not a tag, yields a function (or the
   * prototype itself, for `__proto__`), which is truthy.
   */
  const InheritedNames: set<string> := {
    "constructor", "hasOwnProperty", "isPrototypeOf", "propertyIsEnumerable",
    "toLocaleString", "toString", "valueOf", "__proto__",
    "__defineGetter__", "__defineSetter__", "__lookupGetter__", "__lookupSetter__"
  }

  /** Whether `tags[name]` is truthy: an own tag's score when it is not 0, else an inherited property. */
  predicate LookupTruthy(tags: Tags, name: string) {
    if name in tags then tags[name] != 0 else name in InheritedNames
  }

  /** A custom name is rejected when it trims to nothing or looking it up on the tag record is truthy. */
  predicate CustomNameRejected(tags: Tags, input: string) {
    var name := Js.Trim(input);
    name == "" || LookupTruthy(tags, name)
  }

  /** Re-adding an existing key at the limit changes nothing: the cap is checked before the key. */
  lemma AddAtCapIgnoresExistingKey(tags: Tags, key: string, score: Score)
    requires |tags| >= MaxTags && key in tags
    ensures WithTagAdded(tags, key, score) == tags
  {
  }

  /** Below the limit, adding overwrites an existing score with the given one. */
  lemma AddOverwritesScore(tags: Tags, key: string)
    requires |tags| < MaxTags && key in tags
    ensures WithTagAdded(tags, key, DefaultScore) == tags[key := DefaultScore]
    ensures |WithTagAdded(tags, key, DefaultScore)| == |tags|
  {
  }

  /** A score change can take the editor past four tags. */
  lemma ScoreChangeIgnoresCap(tags: Tags, key: string, score: Score)
    requires |tags| == MaxTags && key !in tags
    ensures |WithScore(tags, key, Some(score))| == MaxTags + 1
  {
  }

  /** A tag scored 0 is not truthy: its name is accepted again and, below the limit, re-added at the default score. */
  lemma ZeroScoredTagReAdded(tags: Tags, input: string)
    requires Js.Trim(input) != "" && Js.Trim(input) in tags && tags[Js.Trim(input)] == 0
    ensures !CustomNameRejected(tags, input)
    ensures |tags| < MaxTags ==> WithTagAdded(tags, Js.Trim(input), DefaultScore)[Js.Trim(input)] == DefaultScore
  {
  }

  /** A name that is not a tag but an inherited property of every object is rejected like a truthy tag. */
  lemma InheritedNameRejected(tags: Tags, input: string)
    requires Js.Trim(input) in InheritedNames && Js.Trim(input) !in tags
    ensures CustomNameRejected(tags, input)
  {
  }

  /** A non-blank name is accepted exactly when it is a tag scored 0, or neither a tag nor an inherited property. */
  lemma AcceptedNames(tags: Tags, input: string)
    requires Js.Trim(input) != ""
    ensures !CustomNameRejected(tags, input) <==>
      (Js.Trim(input) in tags && tags[Js.Trim(input)] == 0)
      || (Js.Trim(input) !in tags && Js.Trim(input) !in InheritedNames)
  {
  }

  /** The editor's working state. */
  class TagEditor {
    var tags: Tags
    var customTagName: string

    /** The working copy holds no more tags than the buttons allow. */
    predicate WithinLimit()
      reads this
    {
      |tags| <= MaxTags
    }

    constructor (currentTags: Tags)
      ensures tags == currentTags && customTagName == ""
    {
      tags := currentTags;
      customTagName := "";
    }

    /** Opening (or new current tags) resets the working copy; the text field keeps its text. */
    method Open(currentTags: Tags)
      modifies this
      ensures tags == currentTags && customTagName == old(customTagName)
    {
      tags := currentTags;
    }

    method TypeName(s: string)
      modifies this
      ensures customTagName == s && tags == old(tags)
    {
      customTagName := s;
    }

    method AddTag(key: string, score: Score)
      modifies this
      ensures tags == WithTagAdded(old(tags), key, score) && customTagName == old(customTagName)
      ensures old(WithinLimit()) ==> WithinLimit()
    {
      if |tags| >= MaxTags {
        return;
      }
      tags := tags[key := score];
    }

    method RemoveTag(key: string)
      modifies this
      ensures tags == WithoutTag(old(tags), key) && customTagName == old(customTagName)
      ensures old(WithinLimit()) ==> WithinLimit()
    {
      var newTags := tags;
      newTags := newTags - {key};
      tags := newTags;
    }

    /** `score` is the parsed input, `None` when it is NaN. */
    method ScoreChange(key: string, score: Option<Score>)
      modifies this
      ensures tags == WithScore(old(tags), key, score) && customTagName == old(customTagName)
    {
      if score.Some? {
        tags := tags[key := score.value];
      }
    }

    /** Add the trimmed custom name at the default score; the field is cleared whenever the name is accepted, even at the limit. */
    method AddCustomTag()
      modifies this
      ensures CustomNameRejected(old(tags), old(customTagName)) ==>
        tags == old(tags) && customTagName == old(customTagName)
      ensures !CustomNameRejected(old(tags), old(customTagName)) ==>
        tags == WithTagAdded(old(tags), Js.Trim(old(customTagName)), DefaultScore) && customTagName == ""
      ensures old(WithinLimit()) ==> WithinLimit()
    {
      var name := Js.Trim(customTagName);
      if name == "" {
        return;
      }
      if LookupTruthy(tags, name) {
        return;
      }
      AddTag(name, DefaultScore);
      customTagName := "";
    }

    /** Saving hands exactly the working copy to the caller. */
    method Save() returns (confirmed: Tags)
      ensures confirmed == tags
    {
      confirmed := tags;
    }
  }
}
