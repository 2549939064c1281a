/** The profile screen: uploading a picture (a type check, then a size check,
    then the upload and the `photoURL` write), saving a picture link (accepted
    when it starts with "http"), and choosing the interface language. */
module ProfilePage {
  import opened Account
  import opened Text

  /** The upload limit: `2 * 1024 * 1024` bytes. */
  const MaxImageBytes: nat := 2 * 1024 * 1024

  /** A picked file: its MIME type and its size in bytes. */
  datatype File = File(mimeType: string, size: nat)

  /** The checks at the top of `processAndUpload`: `None` when the file may be
      uploaded, otherwise the message shown. The type is checked first. */
  function ImageError(f: File): (r: Option<string>)
    ensures r.None? <==> StartsWith(f.mimeType, "image/") && f.size <= MaxImageBytes
    ensures !StartsWith(f.mimeType, "image/") ==> r == Some("Please select a valid image file.")
    ensures StartsWith(f.mimeType, "image/") && f.size > MaxImageBytes ==> r == Some("Image size must be less than 2MB.")
  {
    if !StartsWith(f.mimeType, "image/") then Some("Please select a valid image file.")
    else if f.size > MaxImageBytes then Some("Image size must be less than 2MB.")
    else None
  }

  /** A non-image file reports the type error whatever its size; an image of
      exactly 2 MiB passes and one byte more fails on size. */
  lemma TypeCheckedBeforeSize(mimeType: string, size: nat)
    ensures !StartsWith(mimeType, "image/") ==>
      ImageError(File(mimeType, size)) == Some("Please select a valid image file.")
    ensures StartsWith(mimeType, "image/") ==>
      && ImageError(File(mimeType, 2097152)).None?
      && ImageError(File(mimeType, 2097153)) == Some("Image size must be less than 2MB.")
  {
  }

  /** The stored state after an upload with the given download URL: calls 0
      (`uploadBytes`) and 1 (`getDownloadURL`) must succeed before call 2 writes
      `photoURL`; call 3 is `updateProfile` on the signed-in user. */
  function UploadOutcome(u: UserData, f: File, downloadURL: string, backend: Backend): UserData {
    if ImageError(f).None? && backend.Completes(2) then u.(photoURL := downloadURL) else u
  }

  /** The error shown after `processAndUpload`: a check's message, the upload
      failure message if any of the four calls throws, or none. */
  function UploadError(f: File, backend: Backend): (r: Option<string>)
    ensures ImageError(f).Some? ==> r == ImageError(f)
    ensures ImageError(f).None? ==> (r.None? <==> backend.Completes(3))
    ensures r.Some? && ImageError(f).None? ==> r.value == "Upload failed. Try using a link."
  {
    if ImageError(f).Some? then ImageError(f)
    else if !backend.Completes(3) then Some("Upload failed. Try using a link.")
    else None
  }

  /** A rejected file makes no store write; an accepted one changes at most `photoURL`. */
  lemma UploadWritesOnlyPhoto(u: UserData, f: File, downloadURL: string, backend: Backend)
    ensures ImageError(f).Some? ==> UploadOutcome(u, f, downloadURL, backend) == u
    ensures UploadOutcome(u, f, downloadURL, backend) == u.(photoURL := UploadOutcome(u, f, downloadURL, backend).photoURL)
    ensures ImageError(f).None? && backend == Reliable ==>
      UploadOutcome(u, f, downloadURL, backend).photoURL == downloadURL
  {
  }

  /** `tempUrl.startsWith('http')`: the only check on a picture link. */
  predicate UrlAccepted(url: string) {
    StartsWith(url, "http")
  }

  /** The check is a bare prefix test: no scheme separator, no trimming. */
  lemma UrlCheckIsPrefixOnly()
    ensures UrlAccepted("https://example.com/a.png")
    ensures UrlAccepted("httpnonsense")
    ensures !UrlAccepted(" http://example.com")
    ensures !UrlAccepted("HTTP://example.com")
    ensures !UrlAccepted("htt")
  {
    assert "https://example.com/a.png"[..4] == "http";
    assert "httpnonsense"[..4] == "http";
    assert " http://example.com"[0] == ' ';
    assert "HTTP://example.com"[0] == 'H';
  }

  /** The stored state after `handleSaveUrl` for link `url`: call 0 writes
      `photoURL`, call 1 is `updateProfile`. */
  function SaveUrlOutcome(u: UserData, url: string, backend: Backend): UserData {
    if UrlAccepted(url) && backend.Completes(0) then u.(photoURL := url) else u
  }

  /** A rejected link makes no store write; an accepted one changes only `photoURL`. */
  lemma SaveUrlWritesOnlyPhoto(u: UserData, url: string, backend: Backend)
    ensures !UrlAccepted(url) ==> SaveUrlOutcome(u, url, backend) == u
    ensures UrlAccepted(url) && backend == Reliable ==> SaveUrlOutcome(u, url, backend) == u.(photoURL := url)
    ensures SaveUrlOutcome(u, url, backend) == u.(photoURL := SaveUrlOutcome(u, url, backend).photoURL)
  {
  }

  /** An entry of the language list. */
  datatype Language = Language(code: string, name: string)

  /** The list on the screen, English first. */
  const Languages: seq<Language> := [
    Language("en", "English"),
    Language("bn", "\U{09AC}\U{09BE}\U{0982}\U{09B2}\U{09BE}"),
    Language("hi", "\U{0939}\U{093F}\U{0928}\U{094D}\U{0926}\U{0940}"),
    Language("ur", "\U{0627}\U{0631}\U{062F}\U{0648}")
  ]

  /** `ls.find(l => l.code === code)` */
  function FindLanguage(ls: seq<Language>, code: Option<string>): (r: Option<Language>)
    ensures r.Some? ==> r.value in ls && code == Some(r.value.code)
    ensures r.None? ==> forall i :: 0 <= i < |ls| ==> code != Some(ls[i].code)
    ensures |ls| > 0 && code == Some(ls[0].code) ==> r == Some(ls[0])
  {
    if ls == [] then None
    else if code == Some(ls[0].code) then Some(ls[0])
    else FindLanguage(ls[1..], code)
  }

  /** Like `Array.prototype.find`, the search returns the first entry whose
      code matches, whatever entries with the same code follow it. */
  lemma {:induction false} FindLanguageReturnsFirst(ls: seq<Language>, code: string, i: nat)
    requires i < |ls| && ls[i].code == code
    requires forall j :: 0 <= j < i ==> ls[j].code != code
    ensures FindLanguage(ls, Some(code)) == Some(ls[i])
  {
    if i > 0 {
      assert ls[0].code != code;
      forall j | 0 <= j < i - 1 ensures ls[1..][j].code != code {
        assert ls[1..][j] == ls[j + 1];
      }
      FindLanguageReturnsFirst(ls[1..], code, i - 1);
    }
  }

  /** The codes of the fixed list are distinct, so the entry found for a
      listed code is that code's only entry. */
  lemma LanguageCodesDistinct()
    ensures forall i, j :: 0 <= i < j < |Languages| ==> Languages[i].code != Languages[j].code
  {
  }

  /** `currentLang`: the entry for the user's stored language, else English. */
  function CurrentLang(language: Option<string>): (l: Language)
    ensures l in Languages
    ensures (exists i :: 0 <= i < |Languages| && language == Some(Languages[i].code)) ==> Some(l.code) == language
    ensures (forall i :: 0 <= i < |Languages| ==> language != Some(Languages[i].code)) ==> l == Languages[0]
  {
    var found := FindLanguage(Languages, language);
    if found.Some? then found.value else Languages[0]
  }

  /** Codes outside the list, and a missing language, show English. */
  lemma UnknownLanguageShowsEnglish()
    ensures CurrentLang(None).code == "en"
    ensures CurrentLang(Some("fr")).code == "en"
    ensures CurrentLang(Some("EN")).code == "en"
    ensures CurrentLang(Some("ur")).code == "ur"
  {
    assert Languages[3].code == "ur";
  }

  /** The stored state after `selectLanguage(code)`: call 0 writes `language`. */
  function LanguageOutcome(u: UserData, code: string, backend: Backend): UserData {
    if backend.Completes(0) then u.(language := Some(code)) else u
  }

  /** Choosing a language writes only `language`, and a listed code chosen is
      then the one the screen shows. */
  lemma SelectLanguageWritesOnlyLanguage(u: UserData, i: nat, backend: Backend)
    requires i < |Languages|
    ensures var v := LanguageOutcome(u, Languages[i].code, backend);
      && v == u.(language := v.language)
      && (backend == Reliable ==> CurrentLang(v.language) == Languages[i])
  {
  }

  /** None of the profile writes touches the balance or the ledger. */
  lemma KeepsLedgerConsistent(u: UserData, f: File, url: string, code: string, backend: Backend)
    requires LedgerConsistent(u)
    ensures LedgerConsistent(UploadOutcome(u, f, url, backend))
    ensures LedgerConsistent(SaveUrlOutcome(u, url, backend))
    ensures LedgerConsistent(LanguageOutcome(u, code, backend))
  {
  }

  /** The screen's local state. */
  class ProfileScreen {
    var error: Option<string>
    var tempUrl: string
    var showUrlInput: bool
    var showLangSelector: bool

    constructor ()
      ensures error == None && tempUrl == "" && !showUrlInput && !showLangSelector
    {
      error, tempUrl, showUrlInput, showLangSelector := None, "", false, false;
    }

    /** `processAndUpload(file)`; `downloadURL` is what the storage service
        returns for the uploaded file. */
    method ProcessAndUpload(doc: UserDoc, f: File, downloadURL: string, backend: Backend)
      modifies this, doc
      ensures doc.Data() == UploadOutcome(old(doc.Data()), f, downloadURL, backend)
      ensures error == UploadError(f, backend)
      ensures tempUrl == old(tempUrl) && showUrlInput == old(showUrlInput) && showLangSelector == old(showLangSelector)
    {
      error := None;
      if !StartsWith(f.mimeType, "image/") {
        error := Some("Please select a valid image file.");
        return;
      }
      if f.size > MaxImageBytes {
        error := Some("Image size must be less than 2MB.");
        return;
      }
      if !backend.Completes(0) || !backend.Completes(1) || !backend.Completes(2) {
        error := Some("Upload failed. Try using a link.");
        return;
      }
      doc.photoURL := downloadURL;
      if !backend.Completes(3) {
        error := Some("Upload failed. Try using a link.");
      }
    }

    /** `handleSaveUrl`. The error of an earlier attempt is not cleared when the
        link is saved. */
    method SaveUrl(doc: UserDoc, backend: Backend)
      modifies this, doc
      ensures doc.Data() == SaveUrlOutcome(old(doc.Data()), tempUrl, backend)
      ensures !UrlAccepted(tempUrl) ==> error == Some("Enter a valid URL (starting with http)")
      ensures UrlAccepted(tempUrl) && !backend.Completes(1) ==> error == Some("Failed to save URL.")
      ensures UrlAccepted(tempUrl) && backend.Completes(1) ==> error == old(error) && !showUrlInput
      ensures !(UrlAccepted(tempUrl) && backend.Completes(1)) ==> showUrlInput == old(showUrlInput)
      ensures tempUrl == old(tempUrl) && showLangSelector == old(showLangSelector)
    {
      if !StartsWith(tempUrl, "http") {
        error := Some("Enter a valid URL (starting with http)");
        return;
      }
      if !backend.Completes(0) {
        error := Some("Failed to save URL.");
        return;
      }
      doc.photoURL := tempUrl;
      if !backend.Completes(1) {
        error := Some("Failed to save URL.");
        return;
      }
      showUrlInput := false;
    }

    /** `selectLanguage(code)`; a failed write is only logged. */
    method SelectLanguage(doc: UserDoc, code: string, backend: Backend)
      modifies this, doc
      ensures doc.Data() == LanguageOutcome(old(doc.Data()), code, backend)
      ensures showLangSelector == (old(showLangSelector) && !backend.Completes(0))
      ensures error == old(error) && tempUrl == old(tempUrl) && showUrlInput == old(showUrlInput)
    {
      if !backend.Completes(0) { return; }
      doc.language := Some(code);
      showLangSelector := false;
    }
  }
}
