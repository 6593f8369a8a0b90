/**
  The list page and the creation slider guard the same four banner text
  fields differently. The page wants all four non-empty and does not trim;
  the slider wants an image and a title that is not blank after `trim`, and
  does not look at the top and bottom titles. These lemmas say exactly
  which forms one of them accepts and the other rejects.
 */
module BannerChecks {
  import opened Js
  import opened Banners
  import BannerPage
  import AddBanner

  /** The page accepts a form the slider rejects exactly when the page accepts it and its title is all white space. */
  lemma PageOnlyIff(t: BannerText, isActive: bool)
    ensures (BannerPage.AllFilled(t) && AddBanner.SubmitCheck(BannerForm(t, isActive)).Some?)
            <==> (BannerPage.AllFilled(t) && forall i :: 0 <= i < |t.title| ==> IsJsSpace(t.title[i]))
  {
  }

  /** The slider rejects such a form with the title message, not the image message. */
  lemma BlankTitleMessage(t: BannerText, isActive: bool)
    requires BannerPage.AllFilled(t)
    requires forall i :: 0 <= i < |t.title| ==> IsJsSpace(t.title[i])
    ensures AddBanner.SubmitCheck(BannerForm(t, isActive)) == Some("Main title is required")
  {
  }

  /** The slider accepts a form the page rejects exactly when the slider accepts it and a top or bottom title is empty. */
  lemma SliderOnlyIff(t: BannerText, isActive: bool)
    ensures (AddBanner.SubmitCheck(BannerForm(t, isActive)).None? && !BannerPage.AllFilled(t))
            <==> (t.thumbnailImage != "" && Trim(t.title) != "" && (t.toptitle == "" || t.bottomtitle == ""))
  {
  }

  /** A concrete form of each kind: a blank title passes only the page, a missing top title only the slider. */
  lemma ChecksDiffer()
    ensures BannerPage.AllFilled(BannerText("img", "top", " ", "bottom"))
    ensures AddBanner.SubmitCheck(BannerForm(BannerText("img", "top", " ", "bottom"), true)).Some?
    ensures !BannerPage.AllFilled(BannerText("img", "", "title", "bottom"))
    ensures AddBanner.SubmitCheck(BannerForm(BannerText("img", "", "title", "bottom"), true)).None?
  {
  }
}
