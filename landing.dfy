/** The landing page: the confession form, its guard and what it sends. */
module Landing {
  import opened Wrappers
  import opened Records
  import Text

  /** The mood buttons of the form. */
  const Moods: seq<string> := ["Love", "Sad", "Secret", "Funny", "Rant"]

  /** The categories and colours a confession is given at random. */
  const Categories: seq<string> := ["Romance", "Funny", "Dark Secrets", "School", "Work", "Misc", "Family", "Deep"]
  const Colors: seq<string> := ["bg-pink-100", "bg-yellow-100", "bg-purple-100", "bg-blue-100", "bg-green-100", "bg-orange-100"]

  /** The longest confession the form sends. */
  const MaxLength: nat := 500

  /** The form sends content that is not blank and at most MaxLength characters long. */
  predicate CanSubmit(content: string): (b: bool)
    ensures b <==> !Text.Blank(content) && |content| <= MaxLength
  {
    Text.Trim(content) != [] && |content| <= MaxLength
  }

  /**
   * `Math.floor(roll * n)` for a `Math.random()` roll in [0, 1): always an index of
   * a list of n elements.
   */
  function RandomIndex(roll: real, n: nat): (i: nat)
    requires 0.0 <= roll < 1.0 && n > 0
    ensures i < n
  {
    var x := roll * n as real;
    assert 0.0 <= x < n as real by {
      assert roll * n as real < 1.0 * n as real;
    }
    x.Floor
  }

  /** The body of the submission request. */
  datatype ConfessionPost = ConfessionPost(content: string, category: string, color: string, mood: string)

  /** Everything the form may send passes the server's required-field check. */
  lemma PostAccepted(post: ConfessionPost)
    requires CanSubmit(post.content)
    requires post.category in Categories && post.color in Colors && post.mood in Moods
    ensures Filled(Some(post.content)) && Filled(Some(post.category))
    ensures Filled(Some(post.color)) && Filled(Some(post.mood))
  {
    assert Text.Blank([]);
    assert forall i :: 0 <= i < |Categories| ==> |Categories[i]| > 0;
    assert forall i :: 0 <= i < |Colors| ==> |Colors[i]| > 0;
    assert forall i :: 0 <= i < |Moods| ==> |Moods[i]| > 0;
  }

  /** The form's state. */
  class LandingForm {
    var content: string
    var mood: string
    var showModal: bool
    var isSubmitting: bool

    /** The mood is always one of the buttons' moods. */
    ghost predicate Valid()
      reads this
    {
      mood in Moods
    }

    /** An empty form with the mood "Secret", no confirmation shown, nothing in flight. */
    constructor ()
      ensures Valid()
      ensures content == "" && mood == "Secret" && !showModal && !isSubmitting
    {
      content, mood, showModal, isSubmitting := "", "Secret", false, false;
    }

    /** A mood button. */
    method SelectMood(i: nat)
      requires Valid() && i < |Moods|
      modifies this
      ensures Valid() && mood == Moods[i]
      ensures content == old(content) && showModal == old(showModal) && isSubmitting == old(isSubmitting)
    {
      mood := Moods[i];
    }

    /** Typing in the text area. */
    method Edit(text: string)
      requires Valid()
      modifies this
      ensures Valid() && content == text
      ensures mood == old(mood) && showModal == old(showModal) && isSubmitting == old(isSubmitting)
    {
      content := text;
    }

    /** The send button is disabled exactly while a post is in flight or the guard would reject. */
    function SendDisabled(): (b: bool)
      reads this
      ensures b <==> isSubmitting || Text.Blank(content) || |content| > MaxLength
      ensures !b ==> CanSubmit(content)
    {
      isSubmitting || Text.Trim(content) == [] || |content| > MaxLength
    }

    /**
     * `handleSubmit`: a blank or too long text sends nothing and changes nothing.
     * Otherwise it sends the text and the mood with a category and a colour from the
     * fixed lists; once the request went through, the confirmation is shown and the
     * text and the mood are reset; either way the form is no longer submitting.
     * The rolls are the two `Math.random()` values; `delivered` says whether the
     * request went through.
     */
    method HandleSubmit(categoryRoll: real, colorRoll: real, delivered: bool) returns (post: Option<ConfessionPost>)
      requires Valid()
      requires 0.0 <= categoryRoll < 1.0 && 0.0 <= colorRoll < 1.0
      modifies this
      ensures Valid()
      ensures !CanSubmit(old(content)) ==>
        && post == None
        && content == old(content) && mood == old(mood)
        && showModal == old(showModal) && isSubmitting == old(isSubmitting)
      ensures CanSubmit(old(content)) ==>
        && post.Some?
        && post.value.content == old(content) && post.value.mood == old(mood)
        && post.value.category in Categories && post.value.color in Colors
        && !isSubmitting
        && (delivered ==> showModal && content == "" && mood == "Secret")
        && (!delivered ==> showModal == old(showModal) && content == old(content) && mood == old(mood))
    {
      if Text.Trim(content) == [] || |content| > MaxLength {
        return None;
      }
      isSubmitting := true;
      var category := Categories[RandomIndex(categoryRoll, |Categories|)];
      var color := Colors[RandomIndex(colorRoll, |Colors|)];
      post := Some(ConfessionPost(content, category, color, mood));
      if delivered {
        showModal := true;
        content := "";
        mood := "Secret";
      }
      isSubmitting := false;
    }
  }
}
