/** The settings the autoscaler reads from its YAML configuration file once at
    start-up and then only reads. Loading the file, the service-account and
    model-file checks and the process exit on failure are not part of this
    model; the loader only checks that the file holds a mapping, so no field
    below is validated. */
module Configuration {

  datatype Config = Config(
    namespace: string,                   // namespace
    deploymentName: string,              // deployment_name
    threshold: int,                      // threshold_value: requests one pod serves per minute
    minPodReplicas: int,                 // min_pod_replicas
    maxPodReplicas: int,                 // max_pod_replicas: loaded, never read by the decision
    removalStrategy: real,               // resource_removal_strategy: share of surplus pods removed
    mitigation: real,                    // prediction_error_mitigation_value
    enableCloudMetricPublishing: bool,   // enable_cloud_metric_publishing: never read per iteration
    enableCloudLogging: bool)            // enable_cloud_logging
}
