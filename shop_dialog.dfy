/** The shop dialog: the form state reset when it opens, and the slug
    derived from the name on submit. Ratings and coordinates are kept as
    real numbers and only copied. */
module ShopDialog {
  import opened Collections
  import opened Text

  datatype Shop = Shop(id: string, name: string, slug: string, category: string, address: string,
                       rating: real, deliveryTime: string, image: string, isOpen: bool,
                       lat: Option<real>, lng: Option<real>)

  /** `replace(/\s+/g, '-')`: each maximal run of whitespace becomes one
      '-'. `inRun` says that the character before `s` was whitespace. */
  function Dashify(s: string, inRun: bool): (r: string)
    ensures |r| <= |s|
    ensures forall i :: 0 <= i < |r| ==> !IsSpace(r[i])
  {
    if s == [] then []
    else if IsSpace(s[0]) then (if inRun then "" else "-") + Dashify(s[1..], true)
    else [s[0]] + Dashify(s[1..], false)
  }

  /** Only '-' is introduced: no upper-case letter appears that was not there. */
  lemma {:induction false} DashifyKeepsLowerCase(s: string, inRun: bool)
    requires forall i :: 0 <= i < |s| ==> !('A' <= s[i] <= 'Z')
    ensures forall i :: 0 <= i < |Dashify(s, inRun)| ==> !('A' <= Dashify(s, inRun)[i] <= 'Z')
  {
    if s != [] {
      DashifyKeepsLowerCase(s[1..], IsSpace(s[0]));
    }
  }

  /** A string without whitespace is left as it is. */
  lemma {:induction false} DashifyWithoutSpace(s: string, inRun: bool)
    requires forall i :: 0 <= i < |s| ==> !IsSpace(s[i])
    ensures Dashify(s, inRun) == s
  {
    if s != [] {
      DashifyWithoutSpace(s[1..], false);
    }
  }

  /** Trailing whitespace leaves a trailing '-' (when outside a run). */
  lemma {:induction false} TrailingSpaceLeavesDash(s: string, inRun: bool)
    requires s != [] && IsSpace(s[|s| - 1]) && !(inRun && forall i :: 0 <= i < |s| ==> IsSpace(s[i]))
    ensures Dashify(s, inRun) != [] && Dashify(s, inRun)[|Dashify(s, inRun)| - 1] == '-'
  {
    var tail := s[1..];
    if tail == [] {
      assert !inRun;
    } else {
      assert tail[|tail| - 1] == s[|s| - 1];
      if IsSpace(s[0]) {
        if !inRun {
          if forall i :: 0 <= i < |tail| ==> IsSpace(tail[i]) {
            DashifyAllSpace(tail);
          } else {
            TrailingSpaceLeavesDash(tail, true);
          }
        } else {
          var k :| 0 <= k < |s| && !IsSpace(s[k]);
          assert tail[k - 1] == s[k];
          TrailingSpaceLeavesDash(tail, true);
        }
      } else {
        TrailingSpaceLeavesDash(tail, false);
      }
    }
  }

  /** Inside a run, further whitespace adds nothing. */
  lemma {:induction false} DashifyAllSpace(s: string)
    requires forall i :: 0 <= i < |s| ==> IsSpace(s[i])
    ensures Dashify(s, true) == ""
  {
    if s != [] {
      DashifyAllSpace(s[1..]);
    }
  }

  /** The slug saved with the shop. */
  function Slug(name: string): (slug: string)
    ensures |slug| <= |name|
    ensures forall i :: 0 <= i < |slug| ==> !IsSpace(slug[i]) && !('A' <= slug[i] <= 'Z')
  {
    DashifyKeepsLowerCase(Lower(name), false);
    Dashify(Lower(name), false)
  }

  /** A name without whitespace becomes its lower-cased self. */
  lemma SlugOfOneWord(name: string)
    requires forall i :: 0 <= i < |name| ==> !IsSpace(name[i])
    ensures Slug(name) == Lower(name)
  {
    DashifyWithoutSpace(Lower(name), false);
  }

  /** Deriving the slug again from a slug changes nothing. */
  lemma SlugIdempotent(name: string)
    ensures Slug(Slug(name)) == Slug(name)
  {
    var s := Slug(name);
    assert forall i :: 0 <= i < |s| ==> LowerChar(s[i]) == s[i];
    assert Lower(s) == s;
    DashifyWithoutSpace(s, false);
  }

  /** No trimming: surrounding whitespace becomes a leading and a trailing '-'. */
  lemma SurroundingSpaceBecomesDashes(name: string)
    requires name != [] && IsSpace(name[0]) && IsSpace(name[|name| - 1])
    ensures Slug(name)[0] == '-' && Slug(name)[|Slug(name)| - 1] == '-'
  {
    TrailingSpaceLeavesDash(Lower(name), false);
  }

  lemma {:induction false} DashifyWordThen(word: string, rest: string, inRun: bool)
    requires word != [] && forall i :: 0 <= i < |word| ==> !IsSpace(word[i])
    ensures Dashify(word + rest, inRun) == word + Dashify(rest, false)
  {
    assert (word + rest)[0] == word[0];
    assert (word + rest)[1..] == word[1..] + rest;
    if |word| > 1 {
      DashifyWordThen(word[1..], rest, false);
    }
  }

  lemma {:induction false} DashifyRunThen(gap: string, rest: string, inRun: bool)
    requires gap != [] && forall i :: 0 <= i < |gap| ==> IsSpace(gap[i])
    ensures Dashify(gap + rest, inRun) == (if inRun then "" else "-") + Dashify(rest, true)
  {
    assert (gap + rest)[0] == gap[0];
    assert (gap + rest)[1..] == gap[1..] + rest;
    if |gap| > 1 {
      DashifyRunThen(gap[1..], rest, true);
    }
  }

  /** Two words separated by a run of whitespace join with one '-'. */
  lemma TwoWords(first: string, gap: string, second: string)
    requires first != [] && forall i :: 0 <= i < |first| ==> !IsSpace(first[i])
    requires gap != [] && forall i :: 0 <= i < |gap| ==> IsSpace(gap[i])
    requires second != [] && forall i :: 0 <= i < |second| ==> !IsSpace(second[i])
    ensures Slug(first + gap + second) == Lower(first) + "-" + Lower(second)
  {
    assert Lower(first + gap + second) == Lower(first) + (Lower(gap) + Lower(second));
    DashifyWordThen(Lower(first), Lower(gap) + Lower(second), false);
    DashifyRunThen(Lower(gap), Lower(second), false);
    DashifyWithoutSpace(Lower(second), true);
  }

  /** The form a new shop opens with. */
  function NewShop(stamp: string): Shop
  {
    Shop("shop_" + stamp, "", "", "Grocery", "", 4.5, "10 mins",
         "https://images.unsplash.com/photo-1604719312566-8912e9227c6a", true, Some(13.7563), Some(79.3644))
  }

  /** The dialog's `formData` state. */
  class ShopForm {
    var formData: Shop

    constructor ()
      ensures formData == NewShop("").(id := "")
    {
      formData := NewShop("").(id := "");
    }

    /** The effect on `[shop, open]`: an edited shop prefills the form
        unchanged, otherwise a fresh blank shop is set up. */
    method Reset(shop: Option<Shop>, stamp: string)
      modifies this
      ensures shop.Some? ==> formData == shop.value
      ensures shop.None? ==> formData == NewShop(stamp)
      ensures shop.None? ==>
        formData.id == "shop_" + stamp && formData.name == "" && formData.slug == "" && formData.address == "" &&
        formData.category == "Grocery" && formData.isOpen
    {
      if shop.Some? {
        formData := shop.value;
      } else {
        formData := NewShop(stamp);
      }
    }

    /** `handleSubmit`: the shop handed to `onSave` (the form with the
        derived slug), after which the dialog asks to close. */
    method HandleSubmit() returns (saved: Shop, keepOpen: bool)
      ensures saved == formData.(slug := Slug(formData.name))
      ensures !keepOpen
    {
      saved := formData.(slug := Slug(formData.name));
      keepOpen := false;
    }
  }
}
