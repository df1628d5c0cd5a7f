/**
 * The names both workflow variants derive from the ISO week number: the
 * week folder, the form file and its title, the names uploaded images get,
 * and the local `static/` layout the script variant reads.
 */
module WeekPaths {

  import opened Text
  import opened FormRequests

  /** `str(week_number)`: the week folder's name. */
  function WeekFolderName(week: nat): string {
    NatToString(week)
  }

  /** `Weekly_Meals_Order_Week_<n>`: the Drive name of the week's form. */
  function FormFileName(week: nat): string {
    "Weekly_Meals_Order_Week_" + NatToString(week)
  }

  /** `Meals Order for Week #<n>`: the title the form is created with. */
  function FormTitle(week: nat): string {
    "Meals Order for Week #" + NatToString(week)
  }

  /** `<i+1>.jpeg`: the name the app variant uploads the image of day `i` under. */
  function UploadName(i: nat): string {
    NatToString(i + 1) + ".jpeg"
  }

  /** `<Day>_image.jpg`: the name the script variant uploads a day's image under. */
  function DayImageName(d: Day): string {
    DayName(d) + "_image.jpg"
  }

  /** `static/menu/<week>`. */
  function MenuDir(week: nat): string {
    "static/menu/" + NatToString(week)
  }

  /** `static/pictures/<week>`. */
  function PicturesDir(week: nat): string {
    "static/pictures/" + NatToString(week)
  }

  /** `static/menu/<week>/0<i+1>.json`: the menu file of day `i`. */
  function MenuPath(week: nat, i: nat): string {
    MenuDir(week) + "/0" + NatToString(i + 1) + ".json"
  }

  /** `static/pictures/<week>/0<i+1>.jpeg`: the picture of day `i`. */
  function PicturePath(week: nat, i: nat): string {
    PicturesDir(week) + "/0" + NatToString(i + 1) + ".jpeg"
  }

  /** Every week has its own form file: the name determines the week. */
  lemma FormFileNameInjective(a: nat, b: nat)
    requires FormFileName(a) == FormFileName(b)
    ensures a == b
  {
    var p := "Weekly_Meals_Order_Week_";
    assert NatToString(a) == FormFileName(a)[|p|..];
    assert NatToString(b) == FormFileName(b)[|p|..];
    NatToStringInjective(a, b);
  }

  /** The five uploads of a run get five different names. */
  lemma UploadNamesDistinct(i: nat, j: nat)
    requires UploadName(i) == UploadName(j)
    ensures i == j
  {
    var a := NatToString(i + 1);
    var b := NatToString(j + 1);
    assert |a| == |b|;
    assert a == (a + ".jpeg")[..|a|];
    assert b == (b + ".jpeg")[..|b|];
    NatToStringInjective(i + 1, j + 1);
  }
}
