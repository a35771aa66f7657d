/** components/GuardianDashboard.tsx: the guardian's view. Derived values (online,
    fall overlay, visible logs, the med-record panel, the preview overlay) and the state
    the refresh and the taps write. The sync service, the safety-log store and the five
    second interval are inputs: each refresh takes what they returned. */
module GuardianDashboard {
  import opened Wrappers
  import opened Types
  import SeniorViewMirror
  import MedicationCapture
  import LanguageContext

  const VisibleLogLimit := 10

  /** `data && Date.now() - data.last_heartbeat < 15000`. */
  predicate IsOnline(data: Option<SyncData>, now: int) {
    data.Some? && now - data.value.lastHeartbeat < 15000
  }

  /** The dashboard's online rule and the mirror's badge agree whenever there is data. */
  lemma OnlineAgreesWithMirror(data: Option<SyncData>, now: int, table: LanguageContext.Table, lang: Language)
    ensures data.None? ==> !IsOnline(data, now)
    ensures data.Some? ==> (IsOnline(data, now) <==> SeniorViewMirror.Mirror(data, now, table, lang).online)
    ensures data.Some? && now - data.value.lastHeartbeat == 15000 ==> !IsOnline(data, now)
  {
  }

  /** `syncData?.is_falling`: the overlay shows exactly when the flag is true. */
  predicate ShowsFallOverlay(data: Option<SyncData>) {
    data.Some? && data.value.isFalling == Some(true)
  }

  /** The overlay needs data whose flag is set to true (an absent or false flag shows
      nothing), and it does not depend on the heartbeat: it shows for an elder who is
      offline as well. */
  lemma FallOverlayGating(data: SyncData, now: int, heartbeat: int)
    ensures !ShowsFallOverlay(None)
    ensures ShowsFallOverlay(Some(data)) <==> data.isFalling == Some(true)
    ensures ShowsFallOverlay(Some(data)) == ShowsFallOverlay(Some(data.(lastHeartbeat := heartbeat)))
    ensures data.isFalling == Some(true) && now - data.lastHeartbeat >= 15000 ==>
      ShowsFallOverlay(Some(data)) && !IsOnline(Some(data), now)
  {
  }

  /** `logs.slice(0, 10)`. */
  function VisibleLogs(logs: seq<HealthLog>): (r: seq<HealthLog>)
    ensures |r| == if |logs| < VisibleLogLimit then |logs| else VisibleLogLimit
    ensures r == logs[..|r|]
  {
    if |logs| <= VisibleLogLimit then logs else logs[..VisibleLogLimit]
  }

  /** At most ten logs are shown, in stored order, and none is left out while there are
      ten or fewer. */
  lemma VisibleLogsArePrefix(logs: seq<HealthLog>)
    ensures |VisibleLogs(logs)| <= VisibleLogLimit
    ensures forall i :: 0 <= i < |VisibleLogs(logs)| ==> VisibleLogs(logs)[i] == logs[i]
    ensures |logs| <= VisibleLogLimit ==> VisibleLogs(logs) == logs
  {
  }

  /** The med-record panel's two forms. */
  datatype MedPanel = NoRecordsPlaceholder | RecordCards(records: seq<MedRecord>)

  function RenderMedPanel(records: seq<MedRecord>): (r: MedPanel)
    ensures r.NoRecordsPlaceholder? <==> records == []
    ensures r.RecordCards? ==> r.records == records
  {
    if |records| == 0 then NoRecordsPlaceholder else RecordCards(records)
  }

  /** What a tap on a record's card selects. */
  datatype TapTarget = PlayVideo(video: string) | ShowImage(image: string) | NothingToShow

  /** The tap handler's choice: the video when present, else the image when present. */
  function TapTargetOf(r: MedRecord): TapTarget {
    if Truthy(r.videoData) then PlayVideo(r.videoData.value)
    else if Truthy(r.evidenceImage) then ShowImage(r.evidenceImage.value)
    else NothingToShow
  }

  /** The video wins over the image; the image is chosen only for a record without video;
      a record with neither selects nothing. */
  lemma VideoOverImage(r: MedRecord)
    ensures TapTargetOf(r).PlayVideo? <==> Truthy(r.videoData)
    ensures TapTargetOf(r).ShowImage? <==> !Truthy(r.videoData) && Truthy(r.evidenceImage)
    ensures TapTargetOf(r).NothingToShow? <==> !Truthy(r.videoData) && !Truthy(r.evidenceImage)
    ensures TapTargetOf(r).PlayVideo? ==> TapTargetOf(r).video == r.videoData.value
    ensures TapTargetOf(r).ShowImage? ==> TapTargetOf(r).image == r.evidenceImage.value
  {
  }

  /** A record saved by the capture screen with a video opens that video; one saved
      without video and without a snapshot opens nothing. */
  lemma TapOnCapturedRecord(medName: string, snapshot: Option<string>, video: Option<string>, clock: MedicationCapture.Clock)
    ensures var r := MedicationCapture.MakeRecord(medName, snapshot, video, clock);
      && (Truthy(video) ==> TapTargetOf(r) == PlayVideo(video.value))
      && (!Truthy(video) && !Truthy(snapshot) ==> TapTargetOf(r) == NothingToShow)
      && (!Truthy(video) && Truthy(snapshot) ==> TapTargetOf(r) == ShowImage(snapshot.value))
  {
  }

  /** The full-screen overlay on top of the dashboard. */
  datatype Preview = VideoPreview(video: string) | ImagePreview(image: string) | NoPreview

  class Dashboard {
    var syncData: Option<SyncData>
    var logs: seq<HealthLog>
    var medRecords: seq<MedRecord>
    var selectedImg: Option<string>
    var selectedVideo: Option<string>
    var isOnline: bool
    var showMirror: bool
    var showAlarmConfig: bool

    constructor ()
      ensures syncData == None && logs == [] && medRecords == []
      ensures selectedImg == None && selectedVideo == None && !isOnline && !showMirror && !showAlarmConfig
    {
      syncData, logs, medRecords := None, [], [];
      selectedImg, selectedVideo := None, None;
      isOnline, showMirror, showAlarmConfig := false, false, false;
    }

    /** `refreshData`: the latest sync data, the safety logs and the stored med records,
        and the online rule at `now`. */
    method Refresh(data: Option<SyncData>, savedLogs: seq<HealthLog>, savedMeds: seq<MedRecord>, now: int)
      modifies this
      ensures syncData == data && logs == savedLogs && medRecords == savedMeds
      ensures isOnline == IsOnline(data, now)
      ensures selectedImg == old(selectedImg) && selectedVideo == old(selectedVideo)
      ensures showMirror == old(showMirror) && showAlarmConfig == old(showAlarmConfig)
    {
      syncData := data;
      logs := savedLogs;
      medRecords := savedMeds;
      isOnline := data.Some? && now - data.value.lastHeartbeat < 15000;
    }

    /** The card's `onClick`. */
    method TapRecord(r: MedRecord)
      modifies this
      ensures TapTargetOf(r).PlayVideo? ==> selectedVideo == Some(TapTargetOf(r).video) && selectedImg == old(selectedImg)
      ensures TapTargetOf(r).ShowImage? ==> selectedImg == Some(TapTargetOf(r).image) && selectedVideo == old(selectedVideo)
      ensures TapTargetOf(r).NothingToShow? ==> selectedImg == old(selectedImg) && selectedVideo == old(selectedVideo)
      ensures syncData == old(syncData) && logs == old(logs) && medRecords == old(medRecords)
      ensures isOnline == old(isOnline) && showMirror == old(showMirror) && showAlarmConfig == old(showAlarmConfig)
    {
      if Truthy(r.videoData) {
        selectedVideo := r.videoData;
      } else if Truthy(r.evidenceImage) {
        selectedImg := r.evidenceImage;
      }
    }

    /** A click on the image preview closes it. */
    method CloseImage()
      modifies this
      ensures selectedImg == None && selectedVideo == old(selectedVideo)
      ensures syncData == old(syncData) && logs == old(logs) && medRecords == old(medRecords) && isOnline == old(isOnline)
    {
      selectedImg := None;
    }

    /** The video overlay's close button. */
    method CloseVideo()
      modifies this
      ensures selectedVideo == None && selectedImg == old(selectedImg)
      ensures syncData == old(syncData) && logs == old(logs) && medRecords == old(medRecords) && isOnline == old(isOnline)
    {
      selectedVideo := None;
    }

    /** The overlay shown: the video when one is selected; the image only when an image is
        selected and no video is. */
    function Overlay(): (p: Preview)
      reads this
      ensures p.VideoPreview? <==> Truthy(selectedVideo)
      ensures p.ImagePreview? <==> Truthy(selectedImg) && !Truthy(selectedVideo)
      ensures p.VideoPreview? ==> p.video == selectedVideo.value
      ensures p.ImagePreview? ==> p.image == selectedImg.value
    {
      if Truthy(selectedVideo) then VideoPreview(selectedVideo.value)
      else if Truthy(selectedImg) then ImagePreview(selectedImg.value)
      else NoPreview
    }
  }

  /** After a video is opened over a selected image, closing the video brings the image
      preview back. */
  method CloseVideoRevealsImage(image: string, video: string) returns (d: Dashboard)
    requires image != "" && video != ""
    ensures d.Overlay() == ImagePreview(image)
  {
    d := new Dashboard();
    d.TapRecord(MedRecord("1", "med", "08:00", 0, Some(image), None, Verified, Some(false)));
    d.TapRecord(MedRecord("2", "med", "09:00", 1, Some(image), Some(video), Verified, Some(true)));
    assert d.Overlay() == VideoPreview(video);
    d.CloseVideo();
  }
}
