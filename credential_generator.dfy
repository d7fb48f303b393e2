/**
 * The generator screen: the searched employees, each with an avatar and either a
 * "Descargada" marker or a "Generar Credencial" button. The button only records the id as
 * downloaded; it starts no generation.
 */
module CredentialGenerator {
  import opened Wrappers
  import opened EmployeeTypes
  import opened Credentials
  import opened CredentialSearch

  datatype RowAction = DownloadedMarker | GenerateButton

  /** `downloadedIds.has(employee.id) ? <marker> : <button>`. */
  function RowActionFor(e: Employee, downloaded: set<string>): RowAction
  {
    if e.id in downloaded then DownloadedMarker else GenerateButton
  }

  /** What the avatar shows: the photo, or the two initials. */
  datatype Avatar = Photo(src: string) | Letters(text: string)

  /** `{s[0]}` in JSX: the first character, or nothing for the empty string. */
  function JsxLetter(s: string): string
  {
    if |s| > 0 then [s[0]] else ""
  }

  function AvatarFor(e: Employee): Avatar
  {
    if HasPhoto(e) then Photo(e.profileImage.value) else Letters(JsxLetter(e.firstName) + JsxLetter(e.lastName))
  }

  /**
   * Without a photo the avatar shows the first letters of the first and last names: the same
   * initials the credential card draws, as long as neither name is empty (the card then
   * draws the text `undefined` where the avatar shows nothing).
   */
  lemma AvatarInitials(e: Employee)
    ensures HasPhoto(e) ==> AvatarFor(e) == Photo(e.profileImage.value)
    ensures !HasPhoto(e) && |e.firstName| > 0 && |e.lastName| > 0 ==>
      AvatarFor(e) == Letters([e.firstName[0], e.lastName[0]]) && AvatarFor(e).text == Initials(e)
    ensures !HasPhoto(e) && |e.firstName| == 0 ==> AvatarFor(e).text != Initials(e)
  {
    if !HasPhoto(e) && |e.firstName| == 0 {
      assert |AvatarFor(e).text| <= 1 < |Initials(e)|;
    }
  }

  /** After a download, that employee's row shows the marker and every other row is as before. */
  lemma RowAfterDownload(downloaded: set<string>, id: string, e: Employee)
    ensures e.id == id ==> RowActionFor(e, downloaded + {id}) == DownloadedMarker
    ensures e.id != id ==> RowActionFor(e, downloaded + {id}) == RowActionFor(e, downloaded)
  {
  }

  class CredentialGenerator {
    var search: string
    var downloadedIds: set<string>

    constructor ()
      ensures search == "" && downloadedIds == {}
    {
      search := "";
      downloadedIds := {};
    }

    method SetSearch(s: string)
      modifies this
      ensures search == s && downloadedIds == old(downloadedIds)
    {
      search := s;
    }

    /** `handleDownload(id)`: the set only grows, by this id. */
    method HandleDownload(id: string)
      modifies this
      ensures downloadedIds == old(downloadedIds) + {id}
      ensures old(downloadedIds) <= downloadedIds && id in downloadedIds
      ensures search == old(search)
    {
      downloadedIds := downloadedIds + {id};
    }
  }
}
