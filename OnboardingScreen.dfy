/** The three-page onboarding pager: its page index, the skip button, the page dots and
    the next/finish button. Finishing (by skip or on the last page) is the callback that
    `App.NyamApp.FinishOnboarding` models. */
module OnboardingPager {

  datatype Page = Page(title: string, description: string, isLogo: bool)

  const Pages: seq<Page> := [
    Page("Welcome to NYAM!", "Asisten Gizi Cerdas Anda. Kami bantu atur pola makan sehat.", true),
    Page("Track Nutrition", "Pantau kalori harian dan nutrisi tubuh dengan mudah.", false),
    Page("Scan Food", "Foto bahan makanan di kulkas, kami carikan resepnya.", false)
  ]

  const LastPage: nat := |Pages| - 1

  /** The dot row: one dot per page, exactly the current one highlighted. */
  function Dots(current: nat): (dots: seq<bool>)
    ensures |dots| == |Pages|
    ensures forall i :: 0 <= i < |dots| ==> (dots[i] <==> i == current)
  {
    seq(|Pages|, i => i == current)
  }

  class Pager {
    var currentPage: nat

    ghost predicate Valid()
      reads this
    {
      currentPage < |Pages|
    }

    constructor ()
      ensures Valid() && currentPage == 0
    {
      currentPage := 0;
    }

    /** The skip button is shown on every page but the last. */
    predicate SkipVisible(): (visible: bool)
      reads this
      ensures Valid() ==> (visible <==> ButtonText() == "Next")
    {
      currentPage < |Pages| - 1
    }

    /** The button reads "Get Started" on the last page and shows an arrow elsewhere. */
    function ButtonText(): (t: string)
      reads this
      ensures t == "Get Started" <==> currentPage == LastPage
    {
      if currentPage == |Pages| - 1 then "Get Started" else "Next"
    }

    /** Only the first page carries the team credit. */
    predicate ShowsCredit()
      reads this
    {
      currentPage == 0
    }

    /** A swipe that settles on a page. */
    method SettleOn(page: nat)
      requires page < |Pages|
      modifies this
      ensures Valid() && currentPage == page
    {
      currentPage := page;
    }

    /** The button: on a page before the last it scrolls to the next page; on the last
        it invokes the finish callback and stays where it is. */
    method Next() returns (finished: bool)
      requires Valid()
      modifies this
      ensures Valid()
      ensures finished <==> old(currentPage) == LastPage
      ensures !finished ==> currentPage == old(currentPage) + 1
      ensures finished ==> currentPage == old(currentPage)
    {
      if currentPage < |Pages| - 1 {
        currentPage := currentPage + 1;
        finished := false;
      } else {
        finished := true;
      }
    }

    /** The skip button invokes the same finish callback. */
    method Skip() returns (finished: bool)
      requires Valid() && SkipVisible()
      ensures finished && currentPage < LastPage
    {
      finished := true;
    }
  }

  /** Pressing the button from the first page reaches the last page after two presses
      and finishes on the third. */
  method PressThrough(p: Pager) returns (presses: seq<bool>)
    requires p.Valid() && p.currentPage == 0
    modifies p
    ensures presses == [false, false, true]
    ensures p.currentPage == LastPage && p.ButtonText() == "Get Started" && !p.SkipVisible()
  {
    var a := p.Next();
    var b := p.Next();
    var c := p.Next();
    presses := [a, b, c];
  }
}
