/** The three kinds of secret-manager reference the webhooks recognise,
    defined by what the strings look like rather than by how they are
    tested. */
module SecretRefs {
  import opened Strings

  const GcpSecretManagerPrefix := "gcp:secretmanager:"
  const AwsSecretsManagerPrefix := "arn:aws:secretsmanager"
  const AwsSsmPrefix := "arn:aws:ssm"
  const SsmParameterMarker := ":parameter/"

  /** A GCP Secret Manager reference. */
  ghost predicate IsGcpSecret(v: string) {
    StartsWith(v, GcpSecretManagerPrefix)
  }

  /** An AWS Secrets Manager ARN. */
  ghost predicate IsAwsSecret(v: string) {
    StartsWith(v, AwsSecretsManagerPrefix)
  }

  /** An AWS SSM ARN that names a parameter. */
  ghost predicate IsSsmParameter(v: string) {
    StartsWith(v, AwsSsmPrefix) && Occurs(v, SsmParameterMarker)
  }
}
