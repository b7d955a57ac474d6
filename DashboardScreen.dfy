/** The dashboard's own state: the greeting, which layer is on screen (camera, search
    results or the tabs), and the flags and results of image upload and text search. */
module Dashboard {
  import opened KotlinText
  import opened Models

  /** The greeting for an hour of the day (`Calendar.HOUR_OF_DAY`, 0..23). */
  function Greeting(hour: int): (g: string)
    ensures 0 <= hour <= 11 <==> g == "Selamat Pagi"
    ensures 12 <= hour <= 14 <==> g == "Selamat Siang"
    ensures 15 <= hour <= 18 <==> g == "Selamat Sore"
    ensures (hour < 0 || hour > 18) <==> g == "Selamat Malam"
  {
    if 0 <= hour <= 11 then "Selamat Pagi"
    else if 12 <= hour <= 14 then "Selamat Siang"
    else if 15 <= hour <= 18 then "Selamat Sore"
    else "Selamat Malam"
  }

  /** Every hour of a day has one of the four greetings, in four consecutive bands. */
  lemma GreetingBands(hour: int)
    requires 0 <= hour < 24
    ensures Greeting(hour) in ["Selamat Pagi", "Selamat Siang", "Selamat Sore", "Selamat Malam"]
    ensures hour >= 19 ==> Greeting(hour) == "Selamat Malam"
  {
  }

  /** The top bar's title: the greeting and the first word of the user's name. */
  function TopBarTitle(hour: int, name: string): (t: string)
    ensures t == Greeting(hour) + ", " + FirstWord(name) + "!"
    ensures ' ' !in name ==> t == Greeting(hour) + ", " + name + "!"
  {
    Greeting(hour) + ", " + FirstWord(name) + "!"
  }

  /** What the dashboard shows. */
  datatype Layer =
    | CameraView
    | ResultsPage(results: seq<Recipe>, recognition: Option<RecognitionInfo>)
    | TabsView(tab: string)

  datatype DashboardToast = PermissionDenied | NotRecognized | UploadFailed | SearchFailed

  class DashboardState {
    var currentTab: string
    var searchResults: Option<seq<Recipe>>
    var recognition: Option<RecognitionInfo>
    var isSearching: bool
    var isCameraOpen: bool

    constructor ()
      ensures currentTab == "home_content" && searchResults.None? && recognition.None?
      ensures !isSearching && !isCameraOpen
    {
      currentTab := "home_content";
      searchResults := None;
      recognition := None;
      isSearching := false;
      isCameraOpen := false;
    }

    /** The overlay logic: the camera covers everything, then the search results, and
        only then the tabs. */
    function Shown(): (l: Layer)
      reads this
      ensures l.CameraView? <==> isCameraOpen
      ensures l.ResultsPage? <==> !isCameraOpen && searchResults.Some?
      ensures l.ResultsPage? ==> l.results == searchResults.value && l.recognition == recognition
      ensures l.TabsView? <==> !isCameraOpen && searchResults.None?
      ensures l.TabsView? ==> l.tab == currentTab
    {
      if isCameraOpen then CameraView
      else if searchResults.Some? then ResultsPage(searchResults.value, recognition)
      else TabsView(currentTab)
    }

    /** The bottom bar. */
    method SelectTab(tab: string)
      modifies this`currentTab
      ensures currentTab == tab
    {
      currentTab := tab;
    }

    /** The camera-permission result. */
    method PermissionResult(granted: bool) returns (toast: Option<DashboardToast>)
      modifies this`isCameraOpen
      ensures granted ==> isCameraOpen && toast.None?
      ensures !granted ==> isCameraOpen == old(isCameraOpen) && toast == Some(PermissionDenied)
    {
      if granted {
        isCameraOpen := true;
        toast := None;
      } else {
        toast := Some(PermissionDenied);
      }
    }

    method CloseCamera()
      modifies this`isCameraOpen
      ensures !isCameraOpen
    {
      isCameraOpen := false;
    }

    /** The synchronous half of `handleImageUpload`, started from the gallery. */
    method StartUpload()
      modifies this`isSearching
      ensures isSearching
    {
      isSearching := true;
    }

    /** A captured photo: the camera closes first, then the upload starts. */
    method ImageCaptured()
      modifies this`isCameraOpen, this`isSearching
      ensures !isCameraOpen && isSearching
    {
      isCameraOpen := false;
      StartUpload();
    }

    /** The launched half of `handleImageUpload`: `hasMultipart` is whether the image
        could be turned into a multipart body, `reply` the prediction call. */
    method FinishUpload(hasMultipart: bool, reply: Reply<PredictData>) returns (toast: Option<DashboardToast>)
      modifies this`searchResults, this`recognition, this`isSearching
      ensures !isSearching
      ensures hasMultipart && reply.IsSuccessful() ==>
                searchResults == (if reply.data.Some? && reply.data.value.recommendations.Some?
                                  then Some(reply.data.value.recommendations.value.recipes) else None)
                && recognition == (if reply.data.Some? then reply.data.value.recognition else None)
                && toast.None?
      ensures !(hasMultipart && reply.IsSuccessful()) ==>
                searchResults == old(searchResults) && recognition == old(recognition)
      ensures toast == (if !hasMultipart || reply.IsSuccessful() then None
                        else if reply.Threw? then Some(UploadFailed) else Some(NotRecognized))
    {
      toast := None;
      if hasMultipart {
        if reply.Threw? {
          toast := Some(UploadFailed);
        } else if reply.IsSuccessful() {
          searchResults := if reply.data.Some? && reply.data.value.recommendations.Some?
                           then Some(reply.data.value.recommendations.value.recipes) else None;
          recognition := if reply.data.Some? then reply.data.value.recognition else None;
        } else {
          toast := Some(NotRecognized);
        }
      }
      isSearching := false;
    }

    /** The search tab's text query, synchronous half. */
    method StartTextSearch()
      modifies this`isSearching
      ensures isSearching
    {
      isSearching := true;
    }

    /** The text search's launched half; the recognition info is left as it was. */
    method FinishTextSearch(reply: Reply<SearchData>) returns (toast: Option<DashboardToast>)
      modifies this`searchResults, this`isSearching
      ensures !isSearching
      ensures reply.IsSuccessful() ==>
                searchResults == (if reply.data.Some? then Some(reply.data.value.recipes) else None)
      ensures !reply.IsSuccessful() ==> searchResults == old(searchResults)
      ensures toast == (if reply.Threw? then Some(SearchFailed) else None)
    {
      toast := None;
      if reply.Threw? {
        toast := Some(SearchFailed);
      } else if reply.IsSuccessful() {
        searchResults := if reply.data.Some? then Some(reply.data.value.recipes) else None;
      }
      isSearching := false;
    }

    /** Back from the results page clears the results and the recognition info. */
    method ResultsBack()
      modifies this`searchResults, this`recognition
      ensures searchResults.None? && recognition.None?
    {
      searchResults := None;
      recognition := None;
    }
  }

  /** Taking a photo and uploading it: the camera is closed, the loading overlay is gone
      afterwards, and a recognised dish with recipes puts the results page on screen. */
  method CaptureAndUpload(d: DashboardState, reply: Reply<PredictData>) returns (toast: Option<DashboardToast>)
    requires d.isCameraOpen
    modifies d
    ensures !d.isCameraOpen && !d.isSearching
    ensures reply.IsSuccessful() && reply.data.Some? && reply.data.value.recommendations.Some? ==>
              d.Shown() == ResultsPage(reply.data.value.recommendations.value.recipes, reply.data.value.recognition)
    ensures !reply.IsSuccessful() ==> d.searchResults == old(d.searchResults) && d.recognition == old(d.recognition)
  {
    d.ImageCaptured();
    toast := d.FinishUpload(true, reply);
  }

  /** Back from the results page always returns to the tabs when no camera is open. */
  method BackToTabs(d: DashboardState)
    requires !d.isCameraOpen
    modifies d
    ensures d.Shown() == TabsView(d.currentTab) && d.currentTab == old(d.currentTab)
  {
    d.ResultsBack();
  }
}
