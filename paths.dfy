/** The URLs the SDK derives from its configuration, as one record. */
module Paths {

  datatype PathData = PathData(
    /** The origin every embedded document is served from. */
    origin: string,
    /** The computing iframe's document. */
    path: string,
    loginPath: string,
    registerPath: string,
    acceptInvitationLinkPath: string,
    createInvitationLinkPath: string,
    changePasswordPath: string,
    /** Where a login that is part of an identity-provider flow continues; relative to the origin. */
    authPath: string)
}
