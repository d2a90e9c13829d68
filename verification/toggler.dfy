/**
 * The script itself: the two element collections it keeps, the two
 * toggles that overwrite them in place, and the click handler.
 * Each method is proved against the value-level definitions of ToggleSpec.
 */
module ToggleScript {
  import opened ToggleSpec

  /**
   * Overwrites every element of `a` with `v`, walking from the last
   * element down to the first.
   */
  method SetAll(a: array<string>, v: string)
    modifies a
    ensures a[..] == Fill(a.Length, v)
  {
    var i: int := a.Length - 1;
    while i > -1
      invariant -1 <= i < a.Length
      invariant forall k | i < k < a.Length :: a[k] == v
      decreases i
    {
      a[i] := v;
      i := i - 1;
    }
  }

  class Toggler {
    /** The display values of the chapter labels, in document order. */
    const chap: array<string>
    /** The display values of the verse markers, in document order. */
    const vers: array<string>

    /**
     * The two collections are distinct objects. Each element belongs to one
     * group only, so a write to one array is never seen through the other.
     */
    ghost predicate Valid()
    {
      chap != vers
    }

    /** The page as the value-level model sees it. */
    function Snapshot(): Page
      reads chap, vers
    {
      Page(chap[..], vers[..])
    }

    constructor (chapters: array<string>, verses: array<string>)
      requires chapters != verses
      ensures Valid() && chap == chapters && vers == verses
    {
      chap := chapters;
      vers := verses;
    }

    /**
     * Shows every chapter label when the first one is not shown, hides
     * every one otherwise; the verse markers are untouched.
     */
    method ToggleChap()
      requires Valid() && chap.Length > 0
      modifies chap
      ensures chap[..] == ToggleGroup(old(chap[..]), Block)
      ensures old(chap[0]) != Block ==> forall i | 0 <= i < chap.Length :: chap[i] == Block
      ensures old(chap[0]) == Block ==> forall i | 0 <= i < chap.Length :: chap[i] == DisplayNone
      ensures vers[..] == old(vers[..])
    {
      if chap[0] != Block {
        SetAll(chap, Block);
      } else {
        SetAll(chap, DisplayNone);
      }
    }

    /**
     * Shows every verse marker when the first one is not shown, hides
     * every one otherwise; the chapter labels are untouched.
     */
    method ToggleVers()
      requires Valid() && vers.Length > 0
      modifies vers
      ensures vers[..] == ToggleGroup(old(vers[..]), Inline)
      ensures old(vers[0]) != Inline ==> forall i | 0 <= i < vers.Length :: vers[i] == Inline
      ensures old(vers[0]) == Inline ==> forall i | 0 <= i < vers.Length :: vers[i] == DisplayNone
      ensures chap[..] == old(chap[..])
    {
      if vers[0] != Inline {
        SetAll(vers, Inline);
      } else {
        SetAll(vers, DisplayNone);
      }
    }

    /**
     * The click handler, given the `localName` of the clicked element.
     * The new page is the one ToggleSpec.Click computes, so every lemma
     * about Click holds of the arrays.
     */
    method MainToggle(target: string)
      requires Valid()
      requires target != LinkTag ==> vers.Length > 0
      modifies chap, vers
      ensures Snapshot() == Click(old(Snapshot()), target)
      ensures target == LinkTag ==> unchanged(chap) && unchanged(vers)
    {
      if target == LinkTag {
        return;
      }
      if chap.Length == 0 {
        ToggleVers();
      } else {
        if chap[0] != Block && vers[0] != Inline {
          ToggleChap();
        } else if chap[0] == Block && vers[0] != Inline {
          ToggleVers();
        } else {
          ToggleChap();
          ToggleVers();
        }
      }
    }
  }
}
