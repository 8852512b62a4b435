/** The session profile of services/AuthService.ts: its default value. */
module AuthService {
  import opened Types

  /** The profile `getProfile` hands out, and stores, when the profile slot is empty. */
  const DEFAULT_PROFILE: UserProfile := UserProfile(
    "u-1",
    "Mustafa Ahmed",
    "mustafa@ahmedestate.com",
    "Ahmed Real Estate Lahore",
    ADMIN,
    "tenant-786",
    "bg-indigo-600")
}
