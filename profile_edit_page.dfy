/** The profile editor of `app/profile/edit/page.tsx`: the picture checks,
    the display-name check, and the record handed to `updateUser`. */
module ProfileEditPage {
  import opened Wrappers
  import opened Text
  import opened Storage

  /** The chosen file, as far as the checks look at it: size in bytes and
      MIME type. */
  datatype ImageFile = ImageFile(size: int, mimeType: string)

  const MaxImageBytes: int := 5 * 1024 * 1024

  const ImageTooLarge: string := "이미지 크기는 5MB 이하여야 합니다."
  const NotAnImage: string := "이미지 파일만 업로드 가능합니다."
  const DisplayNameRequired: string := "표시 이름은 필수입니다."
  const ProfileSaved: string := "프로필이 성공적으로 업데이트되었습니다."

  /** The picture checks, size before type. */
  function ImageFileError(file: ImageFile): (r: Option<string>)
    ensures r == Some(ImageTooLarge) <==> file.size > MaxImageBytes
    ensures r == Some(NotAnImage) <==> file.size <= MaxImageBytes && !StartsWith(file.mimeType, "image/")
    ensures r == None <==> file.size <= MaxImageBytes && StartsWith(file.mimeType, "image/")
  {
    if file.size > MaxImageBytes then Some(ImageTooLarge)
    else if !StartsWith(file.mimeType, "image/") then Some(NotAnImage)
    else None
  }

  /** `updatedUser`: the session user with the trimmed display name and the
      current picture; every other field, the keys included, is kept. */
  function UpdatedProfile(user: User, displayName: string, profileImage: string): (u: User)
    ensures u.id == user.id && u.username == user.username && u.email == user.email
    ensures u.password == user.password && u.bio == user.bio && u.joinedAt == user.joinedAt
    ensures u.displayName == Trim(displayName) && u.avatar == Some(profileImage)
  {
    user.(displayName := Trim(displayName), avatar := Some(profileImage))
  }

  /** Saving an edited profile cannot make two accounts share an e-mail or
      a username, as long as the edited record is the stored one. */
  lemma ProfileUpdateKeepsAccountsDistinct(users: seq<User>, user: User, displayName: string, profileImage: string)
    requires DistinctAccounts(users)
    requires KeysMatchStore(users, user)
    ensures KeysMatchStore(users, UpdatedProfile(user, displayName, profileImage))
    ensures DistinctAccounts(ReplaceById(users, UpdatedProfile(user, displayName, profileImage)))
  {
    var u := UpdatedProfile(user, displayName, profileImage);
    assert u.id == user.id && u.email == user.email && u.username == user.username;
    ReplaceKeepsDistinct(users, u);
  }

  /** The page's state. `profileImage` is the data URL shown as preview and
      saved as the avatar. */
  class EditProfileView {
    var displayName: string
    var profileImage: string
    var imageFile: Option<ImageFile>
    var error: string
    var success: string
    var isSaving: bool

    constructor ()
      ensures displayName == "" && profileImage == "" && imageFile == None
      ensures error == "" && success == "" && !isSaving
    {
      displayName, profileImage, imageFile := "", "", None;
      error, success, isSaving := "", "", false;
    }

    /** The loading effect: a logged-in user's name and picture fill the form. */
    method LoadUser(user: Option<User>)
      modifies this`displayName, this`profileImage
      ensures user.Some? ==> displayName == user.value.displayName
      ensures user.Some? ==> profileImage == if user.value.avatar.Some? then user.value.avatar.value else ""
      ensures user.None? ==> displayName == old(displayName) && profileImage == old(profileImage)
    {
      if user.Some? {
        displayName := user.value.displayName;
        profileImage := if user.value.avatar.Some? then user.value.avatar.value else "";
      }
    }

    /** The name input's `onChange`. */
    method HandleChange(value: string)
      modifies this`displayName
      ensures displayName == value
    {
      displayName := value;
    }

    /** `handleImageChange`: a rejected file sets its message and changes
        nothing else; an accepted one is kept and clears the message. The
        picture itself arrives later, through `ImageLoaded`. */
    method HandleImageChange(file: Option<ImageFile>)
      modifies this`imageFile, this`error
      ensures file.None? ==> imageFile == old(imageFile) && error == old(error)
      ensures file.Some? && ImageFileError(file.value).Some? ==>
        error == ImageFileError(file.value).value && imageFile == old(imageFile)
      ensures file.Some? && ImageFileError(file.value).None? ==> imageFile == file && error == ""
    {
      if file.Some? {
        if file.value.size > MaxImageBytes {
          error := ImageTooLarge;
          return;
        }
        if !StartsWith(file.value.mimeType, "image/") {
          error := NotAnImage;
          return;
        }
        imageFile := file;
        error := "";
      }
    }

    /** The `FileReader` finishing: its data URL becomes the picture. */
    method ImageLoaded(dataUrl: string)
      modifies this`profileImage
      ensures profileImage == dataUrl
    {
      profileImage := dataUrl;
    }

    /** `handleSubmit`: a blank name is refused before anything is stored;
        otherwise a logged-in user's record is replaced through `updateUser`
        and the success message is set. */
    method HandleSubmit(store: Store, user: Option<User>)
      modifies this`error, this`success, this`isSaving, store`users, store`currentUser
      ensures !isSaving
      ensures Trim(displayName) == "" ==>
        error == DisplayNameRequired && success == ""
        && store.users == old(store.users) && store.currentUser == old(store.currentUser)
      ensures Trim(displayName) != "" && user.None? ==>
        error == "" && success == ""
        && store.users == old(store.users) && store.currentUser == old(store.currentUser)
      ensures Trim(displayName) != "" && user.Some? ==>
        var u := UpdatedProfile(user.value, displayName, profileImage);
        error == "" && success == ProfileSaved && store.users == ReplaceById(old(store.users), u)
        && store.currentUser == if old(store.currentUser).Some? && old(store.currentUser).value.id == u.id
                                then Some(u) else old(store.currentUser)
      ensures old(store.Valid()) && user.Some? && KeysMatchStore(old(store.users), user.value) ==> store.Valid()
    {
      error := "";
      success := "";
      isSaving := true;

      if Trim(displayName) == "" {
        error := DisplayNameRequired;
        isSaving := false;
        return;
      }

      if user.Some? {
        var updatedUser := UpdatedProfile(user.value, displayName, profileImage);
        ghost var before := store.users;
        if store.Valid() && KeysMatchStore(before, user.value) {
          ProfileUpdateKeepsAccountsDistinct(before, user.value, displayName, profileImage);
        }
        store.UpdateUser(updatedUser);
        success := ProfileSaved;
      }

      isSaving := false;
    }
  }
}
