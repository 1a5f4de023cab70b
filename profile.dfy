/** The contact links of the site's profile data (src/data/profile.ts). */
module Profile {
  import opened Text

  /** `socials`: the Fiverr profile link and the optional deep link to a gig. */
  datatype Socials = Socials(fiverr: string, fiverrGig: Option<string>)

  /** The profile sets the Fiverr profile link and no gig link. */
  const ProfileSocials := Socials("https://www.fiverr.com/dominerex", None)
}
